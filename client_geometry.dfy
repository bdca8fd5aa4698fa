/** The client entity's geometry helpers: wrapping an angle into one turn, the yaw a
    facing direction asks for, turning toward it at a bounded speed, and the rounding
    between world coordinates and tiles. Numbers are reals: the rounding of
    floating-point arithmetic is not modelled. */
module ClientGeometry {
  import opened Common

  /** `Math.PI`, written out to the digits JavaScript prints. */
  const PI: real := 3.141592653589793
  const TWO_PI: real := 2.0 * PI

  /** The model's yaw offset (`MODEL_YAW_OFFSET`) and the turn speed in radians per
      second (`TURN_SPEED`). */
  const MODEL_YAW_OFFSET: real := -PI
  const TURN_SPEED: real := 6.0

  /** The size of a tile in world units (`World.TILE_SIZE`). */
  const TILE_SIZE: real := 1.0

  /** Rounding toward zero. */
  function Trunc(x: real): (n: int)
    ensures x >= 0.0 ==> n as real <= x < n as real + 1.0
    ensures x < 0.0 ==> n as real - 1.0 < x <= n as real
  {
    if x >= 0.0 then x.Floor else -((-x).Floor)
  }

  /** JavaScript's `a % (2 * PI)`: the remainder of a division truncated toward zero,
      which has the sign of the dividend. */
  function RemTurn(a: real): (r: real)
    ensures a >= 0.0 ==> 0.0 <= r < TWO_PI
    ensures a < 0.0 ==> -TWO_PI < r <= 0.0
  {
    a - Trunc(a / TWO_PI) as real * TWO_PI
  }

  /** `d` is a whole number of turns. */
  predicate WholeTurns(d: real) {
    (d / TWO_PI).Floor as real == d / TWO_PI
  }

  /** `wrapAngleRad` (and `normalizeYaw`, which only calls it). */
  function WrapAngle(a: real): real {
    var r := RemTurn(a + PI);
    (if r < 0.0 then r + TWO_PI else r) - PI
  }

  /** `k` turns, as a real. */
  function Turns(k: int): real {
    k as real * TWO_PI
  }

  lemma TurnsAreWhole(k: int)
    ensures WholeTurns(Turns(k))
  {
    assert Turns(k) / TWO_PI == k as real;
  }

  lemma WholeTurnsAreTurns(d: real)
    requires WholeTurns(d)
    ensures d == Turns((d / TWO_PI).Floor)
  {
  }

  /** A wrapped angle lies in `[-PI, PI)` and differs from the input by whole turns. */
  lemma WrapAngleRange(a: real)
    ensures -PI <= WrapAngle(a) < PI
    ensures WholeTurns(WrapAngle(a) - a)
  {
    var q := Trunc((a + PI) / TWO_PI);
    var r := RemTurn(a + PI);
    assert r == a + PI - Turns(q);
    if r < 0.0 {
      assert WrapAngle(a) - a == Turns(1 - q);
      TurnsAreWhole(1 - q);
    } else {
      assert WrapAngle(a) - a == Turns(-q);
      TurnsAreWhole(-q);
    }
  }

  /** An angle already in `[-PI, PI)` is left alone. */
  lemma WrapAngleFixes(w: real)
    requires -PI <= w < PI
    ensures WrapAngle(w) == w
  {
    assert Trunc((w + PI) / TWO_PI) == 0;
  }

  /** Wrapping twice is wrapping once. */
  lemma WrapAngleIdempotent(a: real)
    ensures WrapAngle(WrapAngle(a)) == WrapAngle(a)
  {
    WrapAngleRange(a);
    WrapAngleFixes(WrapAngle(a));
  }

  /** Two angles whole turns apart in `[-PI, PI)` are the same angle. */
  lemma SameTurnSameAngle(v: real, w: real)
    requires -PI <= v < PI && -PI <= w < PI && WholeTurns(v - w)
    ensures v == w
  {
    WholeTurnsAreTurns(v - w);
    TurnsBeyondOne(((v - w) / TWO_PI).Floor);
  }

  lemma TurnsBeyondOne(k: int)
    ensures k >= 1 ==> Turns(k) >= TWO_PI
    ensures k <= -1 ==> Turns(k) <= -TWO_PI
  {
  }

  /** Angles whole turns apart wrap to the same angle. */
  lemma WrapAngleOfTurns(a: real, b: real)
    requires WholeTurns(a - b)
    ensures WrapAngle(a) == WrapAngle(b)
  {
    WrapAngleRange(a);
    WrapAngleRange(b);
    var ka := ((WrapAngle(a) - a) / TWO_PI).Floor;
    var kb := ((WrapAngle(b) - b) / TWO_PI).Floor;
    var k := ((a - b) / TWO_PI).Floor;
    WholeTurnsAreTurns(WrapAngle(a) - a);
    WholeTurnsAreTurns(WrapAngle(b) - b);
    WholeTurnsAreTurns(a - b);
    assert WrapAngle(a) - WrapAngle(b) == Turns(ka + k - kb);
    TurnsAreWhole(ka + k - kb);
    SameTurnSameAngle(WrapAngle(a), WrapAngle(b));
  }

  /** `getYawFromFacing`: the four straight directions have a yaw; any other direction
      falls through the `switch` and gives `undefined` (`None`). */
  function YawFromFacing(d: Direction): (yaw: Option<real>)
    ensures yaw.Some? <==> d in {Up, Down, Left, Right}
    ensures d == Down ==> yaw == Some(0.0)
    ensures d == Up ==> yaw == Some(PI)
    ensures d == Right ==> yaw == Some(PI / 2.0)
    ensures d == Left ==> yaw == Some(-PI / 2.0)
  {
    match d
    case Down => Some(0.0)
    case Up => Some(PI)
    case Right => Some(PI / 2.0)
    case Left => Some(-PI / 2.0)
    case _ => None
  }

  /** `THREE.MathUtils.clamp`, which is `Math.max(lo, Math.min(hi, v))`. */
  function Clamp(v: real, lo: real, hi: real): (r: real)
    ensures lo <= hi ==> lo <= r <= hi
    ensures lo <= v <= hi ==> r == v
  {
    if v > hi then (if hi < lo then lo else hi) else if v < lo then lo else v
  }

  /** One frame of turning toward a facing direction, as `drawNpc` does it: the yaw
      moves from its wrapped value toward the wanted yaw along the shorter way round,
      by at most `TURN_SPEED * dt`. A yaw that is not a number (`None`) stays so, and a
      direction without a yaw makes it so. */
  function TurnToward(yaw: Option<real>, facing: Direction, dt: real): (r: Option<real>)
    ensures r.Some? <==> yaw.Some? && YawFromFacing(facing).Some?
  {
    if yaw.None? || YawFromFacing(facing).None? then None
    else
      var desired := WrapAngle(YawFromFacing(facing).value + MODEL_YAW_OFFSET);
      var current := WrapAngle(yaw.value);
      var delta := WrapAngle(desired - current);
      Some(current + Clamp(delta, -TURN_SPEED * dt, TURN_SPEED * dt))
  }

  /** A turn moves the wrapped yaw by at most `TURN_SPEED * dt`, and when the wanted yaw
      is within that reach it arrives there exactly. */
  lemma TurnTowardBounded(yaw: real, facing: Direction, dt: real)
    requires dt >= 0.0 && YawFromFacing(facing).Some?
    ensures var r := TurnToward(Some(yaw), facing, dt).value;
      var current := WrapAngle(yaw);
      var desired := WrapAngle(YawFromFacing(facing).value + MODEL_YAW_OFFSET);
      && -TURN_SPEED * dt <= r - current <= TURN_SPEED * dt
      && (-TURN_SPEED * dt <= WrapAngle(desired - current) <= TURN_SPEED * dt ==> WrapAngle(r) == desired)
  {
    var current := WrapAngle(yaw);
    var desired := WrapAngle(YawFromFacing(facing).value + MODEL_YAW_OFFSET);
    var delta := WrapAngle(desired - current);
    if -TURN_SPEED * dt <= delta <= TURN_SPEED * dt {
      WrapAngleRange(desired - current);
      assert (current + delta) - desired == delta - (desired - current);
      WrapAngleOfTurns(current + delta, desired);
      WrapAngleIdempotent(YawFromFacing(facing).value + MODEL_YAW_OFFSET);
    }
  }

  /** `worldToTile` on one axis: the nearest tile, halves rounded up. */
  function WorldToTile(x: real): (t: int)
    ensures t as real - 0.5 <= x < t as real + 0.5
  {
    ((x + TILE_SIZE / 2.0) / TILE_SIZE).Floor
  }

  /** `tileToWorld` on one horizontal axis. */
  function TileToWorld(t: int): (x: real)
    ensures WorldToTile(x) == t
  {
    t as real * TILE_SIZE
  }

  /** A point halfway between two tiles belongs to the upper one. */
  lemma WorldToTileRoundsHalfUp(t: int)
    ensures WorldToTile(t as real + 0.5) == t + 1
    ensures WorldToTile(t as real - 0.5) == t
  {
  }

  // ---------------------------------------------------------------------------------
  // Numbers that may be NaN

  /** A JavaScript number that may be `NaN` (`None`). Arithmetic with `NaN` gives `NaN`
      and every comparison with it is false. */
  type Num = Option<real>

  function Plus(a: Num, b: Num): (r: Num)
    ensures r.Some? <==> a.Some? && b.Some?
  {
    if a.Some? && b.Some? then Some(a.value + b.value) else None
  }

  function Minus(a: Num, b: Num): (r: Num)
    ensures r.Some? <==> a.Some? && b.Some?
  {
    if a.Some? && b.Some? then Some(a.value - b.value) else None
  }

  function Times(a: Num, b: Num): (r: Num)
    ensures r.Some? <==> a.Some? && b.Some?
  {
    if a.Some? && b.Some? then Some(a.value * b.value) else None
  }

  /** An integer that may be `undefined` read as a number: `undefined` arithmetic is
      `NaN`. */
  function FromInt(n: Option<int>): (r: Num)
    ensures r.Some? <==> n.Some?
  {
    if n.Some? then Some(n.value as real) else None
  }

  /** `WorldToTile` of a number that may be `NaN` (`Math.floor(NaN)` is `NaN`). */
  function NumToTile(x: Num): (t: Option<int>)
    ensures t.Some? <==> x.Some?
    ensures x.Some? ==> t.value as real - 0.5 <= x.value < t.value as real + 0.5
  {
    if x.Some? then Some(WorldToTile(x.value)) else None
  }

  /** A point of the scene; any coordinate may be `NaN`. */
  datatype Point = Point(x: Num, y: Num, z: Num)

  /** The squared length of the difference of two points (`NaN` if any coordinate is). */
  function SquaredDistance(a: Point, b: Point): (d: Num)
    ensures d.Some? ==> d.value >= 0.0
  {
    var dx := Minus(a.x, b.x);
    var dy := Minus(a.y, b.y);
    var dz := Minus(a.z, b.z);
    var d := Plus(Plus(Times(dx, dx), Times(dy, dy)), Times(dz, dz));
    assert d.Some? ==> d.value == dx.value * dx.value + dy.value * dy.value + dz.value * dz.value;
    d
  }

  /** `Math.sqrt` is the platform's: it is a parameter of the frame, and these are the
      properties of it the lemmas use. */
  ghost predicate IsSqrt(sqrt: real -> real) {
    forall r: real {:trigger sqrt(r)} :: r >= 0.0 ==> sqrt(r) >= 0.0 && sqrt(r) * sqrt(r) == r
  }

  /** The length of a vector given its squared length. */
  function Length(sqrt: real -> real, d2: Num): (r: Num)
    ensures r.Some? <==> d2.Some?
  {
    if d2.Some? then Some(sqrt(d2.value)) else None
  }

  /** A length compared with a bound: true exactly when the squared length is within the
      squared bound. */
  lemma LengthWithin(sqrt: real -> real, d2: real, bound: real)
    requires IsSqrt(sqrt) && d2 >= 0.0 && bound >= 0.0
    ensures sqrt(d2) <= bound <==> d2 <= bound * bound
  {
    var r := sqrt(d2);
    assert r >= 0.0 && r * r == d2;
    if r <= bound {
      SquareMonotone(r, bound);
    } else {
      SquareStrictlyMonotone(bound, r);
    }
  }

  lemma SquareMonotone(a: real, b: real)
    requires 0.0 <= a <= b
    ensures a * a <= b * b
  {
    assert (b - a) * (b + a) >= 0.0;
    assert (b - a) * (b + a) == b * b - a * a;
  }

  lemma SquareStrictlyMonotone(a: real, b: real)
    requires 0.0 <= a < b
    ensures a * a < b * b
  {
    PositiveProduct(b - a, b + a);
    assert (b - a) * (b + a) == b * b - a * a;
  }

  lemma PositiveProduct(u: real, v: real)
    requires u > 0.0 && v > 0.0
    ensures u * v > 0.0
  {
  }
}
