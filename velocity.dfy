/**
 * The direction-to-velocity mapping of `UpdateTransform2`.
 *
 * The angle is one of four quarter turns, so it is kept as a count of
 * quarter turns `q` standing for the angle q * pi / 2 radians. The
 * floating-point cosine and sine are not modelled; `IdealComponents` gives
 * the exact values they approximate.
 */
module Velocities {
  import opened InputStates

  /** A number of quarter turns, 0 to 3. */
  type QuarterTurn = q: nat | q < 4

  /** A velocity: zero, or `speed` along the angle of `quarterTurns` quarter turns. */
  datatype Velocity = Zero | Polar(quarterTurns: QuarterTurn, speed: int)

  /**
   * The angle choice: it starts at 0 and is overwritten by the direction's
   * angle (Left pi, Up pi/2, Right 0, Down 3*pi/2); `None` keeps 0.
   */
  function AngleOf(s: InputState): (q: QuarterTurn)
    ensures s == None ==> q == 0
    ensures s == Left ==> q == 2
    ensures s == Up ==> q == 1
    ensures s == Right ==> q == 0
    ensures s == Down ==> q == 3
  {
    var a0 := 0;
    var a1 := if s == Left then 2 else a0;
    var a2 := if s == Up then 1 else a1;
    var a3 := if s == Right then 0 else a2;
    if s == Down then 3 else a3
  }

  /** The direction that moves along a given number of quarter turns. */
  function DirectionOf(q: QuarterTurn): (d: InputState)
    ensures IsDirection(d)
  {
    match q
    case 0 => Right
    case 1 => Up
    case 2 => Left
    case 3 => Down
  }

  /** Each direction has its own angle, and the angle gives the direction back. */
  lemma AngleOfRoundTrip(d: InputState)
    requires IsDirection(d)
    ensures DirectionOf(AngleOf(d)) == d
  {
  }

  /** Every quarter turn is the angle of exactly the direction it names. */
  lemma DirectionOfRoundTrip(q: QuarterTurn)
    ensures AngleOf(DirectionOf(q)) == q
  {
  }

  /** The velocity pushed for sampled state `s` with the script's current speed. */
  function VelocityFor(s: InputState, speed: int): (v: Velocity)
    requires IsInputState(s)
    ensures v == Zero <==> s == None
    ensures v.Polar? ==> v.speed == speed && DirectionOf(v.quarterTurns) == s
  {
    if s == None then Zero else Polar(AngleOf(s), speed)
  }

  /** cos(q * pi / 2) and sin(q * pi / 2), exactly. */
  function UnitVector(q: QuarterTurn): (xy: (int, int))
    ensures xy.0 * xy.0 + xy.1 * xy.1 == 1
  {
    match q
    case 0 => (1, 0)
    case 1 => (0, 1)
    case 2 => (-1, 0)
    case 3 => (0, -1)
  }

  /** The (x, y) components in exact arithmetic; the z component is always 0. */
  function IdealComponents(v: Velocity): (xy: (int, int))
  {
    match v
    case Zero => (0, 0)
    case Polar(q, speed) => (UnitVector(q).0 * speed, UnitVector(q).1 * speed)
  }

  /**
   * In exact arithmetic the velocity has magnitude `speed` along the pressed
   * direction (x grows to the right, y grows upward), and magnitude 0 when idle.
   */
  lemma VelocityMagnitude(s: InputState, speed: int)
    requires IsInputState(s)
    ensures var (x, y) := IdealComponents(VelocityFor(s, speed));
      x * x + y * y == (if s == None then 0 else speed * speed)
    ensures s == Left ==> IdealComponents(VelocityFor(s, speed)) == (-speed, 0)
    ensures s == Right ==> IdealComponents(VelocityFor(s, speed)) == (speed, 0)
    ensures s == Up ==> IdealComponents(VelocityFor(s, speed)) == (0, speed)
    ensures s == Down ==> IdealComponents(VelocityFor(s, speed)) == (0, -speed)
    ensures speed != 0 ==> (IdealComponents(VelocityFor(s, speed)) == (0, 0) <==> s == None)
  {
  }
}
