/** The Danis & Cemgil (2017) random-walk trajectory model
    (classes/simulators/trajectory/daniscemgil2017.py). Each call turns the
    heading by a random amount, or by a fixed correction when the receiver
    has left its box, and then steps forward. The call changes no state. */
module DanisCemgil {
  import opened Numerics

  /** The box the receiver should stay in. */
  datatype Bounds = Bounds(minX: real, maxX: real, minY: real, maxY: real)

  /** What `calculate_position` returns: (x, y, angle). */
  datatype Pose = Pose(x: real, y: real, angle: real)

  /** `outbounds_ration`: the heading correction applied out of bounds. */
  const OutboundsRotation: real := Pi / 8.0

  /** The default standard deviation of the heading perturbation. */
  const DefaultS: real := 0.07

  /** Strict comparisons: a position on an edge of the box is inside. */
  predicate OutOfBounds(b: Bounds, x: real, y: real) {
    x < b.minX || x > b.maxX || y < b.minY || y > b.maxY
  }

  /** `delta_l`: metres covered in one iteration at `speed` metres/second. */
  function StepLength(speed: real, ms: int): real {
    speed * ms as real / 1000.0
  }

  /** The kinematic update shared by the variants: the heading turns by
      `delta`, then the receiver moves one step along the new heading; a
      step of length 0 leaves the receiver in place. */
  function Move(m: MathLib, lastX: real, lastY: real, lastAngle: real, delta: real, speed: real, ms: int): (p: Pose)
    ensures p.angle == lastAngle + delta
    ensures StepLength(speed, ms) == 0.0 ==> p.x == lastX && p.y == lastY
  {
    var angle := lastAngle + delta;
    var dl := StepLength(speed, ms);
    Pose(lastX + dl * m.cos(angle), lastY + dl * m.sin(angle), angle)
  }

  /** When cos and sin are a unit vector at the new heading, a step covers
      exactly `StepLength` metres. */
  lemma MoveCoversStepLength(m: MathLib, lastX: real, lastY: real, lastAngle: real, delta: real, speed: real, ms: int)
    requires var a := lastAngle + delta; m.cos(a) * m.cos(a) + m.sin(a) * m.sin(a) == 1.0
    ensures var p := Move(m, lastX, lastY, lastAngle, delta, speed, ms);
      (p.x - lastX) * (p.x - lastX) + (p.y - lastY) * (p.y - lastY)
        == StepLength(speed, ms) * StepLength(speed, ms)
  {
    var angle := lastAngle + delta;
    var dl := StepLength(speed, ms);
    var c, s := m.cos(angle), m.sin(angle);
    assert (dl * c) * (dl * c) + (dl * s) * (dl * s) == dl * dl * (c * c + s * s);
  }

  /** The model and its one parameter. */
  datatype DanisCemgil2017 = DanisCemgil2017(s: real) {

    /** The heading change: the fixed correction out of bounds, otherwise a
        Normal(0, s) sample, given as s times the standard-normal draw z. */
    function DeltaAngle(b: Bounds, x: real, y: real, z: real): real {
      if OutOfBounds(b, x, y) then OutboundsRotation else s * z
    }

    /** `calculate_position`. The current time is not used by this variant. */
    function CalculatePosition(m: MathLib, currentTime: int, ms: int, lastAngle: real,
                               lastX: real, lastY: real, b: Bounds, speed: real, z: real): (p: Pose)
      ensures OutOfBounds(b, lastX, lastY) ==> p.angle == lastAngle + OutboundsRotation
      ensures !OutOfBounds(b, lastX, lastY) ==> p.angle == lastAngle + s * z
    {
      Move(m, lastX, lastY, lastAngle, DeltaAngle(b, lastX, lastY, z), speed, ms)
    }
  }

  /** The model built with its default parameter. */
  const Default: DanisCemgil2017 := DanisCemgil2017(DefaultS)

  /** Out of bounds no draw is used: any two draws give the same result. */
  lemma OutOfBoundsIgnoresDraw(model: DanisCemgil2017, m: MathLib, t: int, ms: int, angle: real,
                               x: real, y: real, b: Bounds, speed: real, z1: real, z2: real)
    requires OutOfBounds(b, x, y)
    ensures model.CalculatePosition(m, t, ms, angle, x, y, b, speed, z1)
         == model.CalculatePosition(m, t, ms, angle, x, y, b, speed, z2)
  {
  }

  /** With no speed, or no time elapsed, the receiver only turns. */
  lemma StandingStill(model: DanisCemgil2017, m: MathLib, t: int, ms: int, angle: real,
                      x: real, y: real, b: Bounds, speed: real, z: real)
    requires speed == 0.0 || ms == 0
    ensures var p := model.CalculatePosition(m, t, ms, angle, x, y, b, speed, z);
      p.x == x && p.y == y
  {
    assert StepLength(speed, ms) == 0.0;
  }
}
