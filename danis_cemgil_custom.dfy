/** The cooldown variant of the Danis & Cemgil model
    (classes/simulators/trajectory/daniscemgil2017custom.py). Inside the box
    the heading is re-sampled only when more than `keep_angle_ms` have passed
    since the last change; the object remembers the time of that change. */
module DanisCemgilCustom {
  import opened Numerics
  import opened DanisCemgil

  const DefaultKeepAngleMs: int := 300

  /** What a call does to the heading. */
  datatype Decision =
    | Correct   // out of bounds: fixed correction, timer reset
    | Resample  // in bounds and the cooldown has expired: new random heading
    | Hold      // in bounds within the cooldown: heading kept

  function Decide(keepAngleMs: int, timer: int, currentTime: int, outOfBounds: bool): Decision {
    if outOfBounds then Correct
    else if currentTime - timer > keepAngleMs then Resample
    else Hold
  }

  /** The timer after the call: the current time whenever the heading changed.
      It only ever moves forward to the current time, and after a call that
      held the heading the cooldown is still running at that time. */
  function NextTimer(d: Decision, timer: int, currentTime: int): (t: int)
    ensures t == timer || t == currentTime
    ensures timer <= currentTime ==> timer <= t <= currentTime
    ensures forall keep, oob :: d == Decide(keep, timer, currentTime, oob) && !oob ==> currentTime - t <= keep || t == currentTime
  {
    if d.Hold? then timer else currentTime
  }

  function DeltaAngle(d: Decision, s: real, z: real): real {
    match d
    case Correct => OutboundsRotation
    case Resample => s * z
    case Hold => 0.0
  }

  /** One call: the returned pose and the new timer. */
  function Step(m: MathLib, keepAngleMs: int, s: real, timer: int, currentTime: int, ms: int,
                lastAngle: real, lastX: real, lastY: real, b: Bounds, speed: real, z: real): (r: (Pose, int))
    ensures OutOfBounds(b, lastX, lastY) ==>
      r.0.angle == lastAngle + OutboundsRotation && r.1 == currentTime
    ensures !OutOfBounds(b, lastX, lastY) && currentTime - timer > keepAngleMs ==>
      r.0.angle == lastAngle + s * z && r.1 == currentTime
    ensures !OutOfBounds(b, lastX, lastY) && currentTime - timer <= keepAngleMs ==>
      r.0.angle == lastAngle && r.1 == timer
  {
    var d := Decide(keepAngleMs, timer, currentTime, OutOfBounds(b, lastX, lastY));
    (Move(m, lastX, lastY, lastAngle, DeltaAngle(d, s, z), speed, ms), NextTimer(d, timer, currentTime))
  }

  class DanisCemgil2017Custom {
    const s: real
    const keepAngleMs: int
    /** `_last_angle_change_time`. */
    var lastAngleChangeTime: int

    constructor (keepAngleMs: int := DefaultKeepAngleMs, s: real := DefaultS)
      ensures this.keepAngleMs == keepAngleMs && this.s == s
      ensures lastAngleChangeTime == 0
    {
      this.s := s;
      this.keepAngleMs := keepAngleMs;
      lastAngleChangeTime := 0;
    }

    /** `calculate_position`: the pose and the new timer are those of `Step`. */
    method CalculatePosition(m: MathLib, currentTime: int, ms: int, lastAngle: real,
                             lastX: real, lastY: real, b: Bounds, speed: real, z: real) returns (p: Pose)
      modifies this
      ensures (p, lastAngleChangeTime)
           == Step(m, keepAngleMs, s, old(lastAngleChangeTime), currentTime, ms, lastAngle, lastX, lastY, b, speed, z)
    {
      var x, y := lastX, lastY;
      ghost var d := Decide(keepAngleMs, lastAngleChangeTime, currentTime, OutOfBounds(b, lastX, lastY));
      var deltaAngle := 0.0;
      if x < b.minX || x > b.maxX || y < b.minY || y > b.maxY {
        deltaAngle := OutboundsRotation;
        lastAngleChangeTime := currentTime;
      } else if currentTime - lastAngleChangeTime > keepAngleMs {
        deltaAngle := s * z;
        lastAngleChangeTime := currentTime;
      }
      assert deltaAngle == DeltaAngle(d, s, z);
      assert lastAngleChangeTime == NextTimer(d, old(lastAngleChangeTime), currentTime);
      var angle := lastAngle + deltaAngle;
      var deltaL := StepLength(speed, ms);
      x := x + deltaL * m.cos(angle);
      y := y + deltaL * m.sin(angle);
      p := Pose(x, y, angle);
      assert p == Move(m, lastX, lastY, lastAngle, deltaAngle, speed, ms);
    }
  }

  // ---- Several calls in a row ----

  /** A call as the timer sees it: its time and whether the receiver was out
      of bounds. */
  datatype Call = Call(time: int, outOfBounds: bool)

  /** A heading change made by one of the calls. */
  datatype Change = Change(time: int, decision: Decision)

  /** The timer after a series of calls. */
  function TimerAfter(keepAngleMs: int, timer: int, calls: seq<Call>): int
    decreases |calls|
  {
    if calls == [] then timer
    else
      var d := Decide(keepAngleMs, timer, calls[0].time, calls[0].outOfBounds);
      TimerAfter(keepAngleMs, NextTimer(d, timer, calls[0].time), calls[1..])
  }

  /** The heading changes made by a series of calls, in order. */
  function Changes(keepAngleMs: int, timer: int, calls: seq<Call>): seq<Change>
    decreases |calls|
  {
    if calls == [] then []
    else
      var d := Decide(keepAngleMs, timer, calls[0].time, calls[0].outOfBounds);
      (if d.Hold? then [] else [Change(calls[0].time, d)])
        + Changes(keepAngleMs, NextTimer(d, timer, calls[0].time), calls[1..])
  }

  predicate NonDecreasing(calls: seq<Call>) {
    forall i, j :: 0 <= i < j < |calls| ==> calls[i].time <= calls[j].time
  }

  /** With call times that never go back, starting from a timer that is not
      ahead of the first call, the timer is never ahead of the latest call. */
  lemma {:induction false} TimerNeverAhead(keepAngleMs: int, timer: int, calls: seq<Call>)
    requires calls != [] && NonDecreasing(calls) && timer <= calls[0].time
    ensures TimerAfter(keepAngleMs, timer, calls) <= calls[|calls| - 1].time
    decreases |calls|
  {
    var d := Decide(keepAngleMs, timer, calls[0].time, calls[0].outOfBounds);
    var next := NextTimer(d, timer, calls[0].time);
    if |calls| > 1 {
      TimerNeverAhead(keepAngleMs, next, calls[1..]);
    }
  }

  /** The first change of a series is a re-sample only if it comes more than
      `keep_angle_ms` after the starting timer, and the timer afterwards is
      the time of the last change (or the starting timer when there was
      none). */
  lemma {:induction false} ChangesTimer(keepAngleMs: int, timer: int, calls: seq<Call>)
    ensures var cs := Changes(keepAngleMs, timer, calls);
      && (cs == [] ==> TimerAfter(keepAngleMs, timer, calls) == timer)
      && (cs != [] ==> TimerAfter(keepAngleMs, timer, calls) == cs[|cs| - 1].time)
      && (cs != [] && cs[0].decision.Resample? ==> cs[0].time - timer > keepAngleMs)
      && (forall c :: c in cs ==> !c.decision.Hold?)
    decreases |calls|
  {
    if calls != [] {
      var d := Decide(keepAngleMs, timer, calls[0].time, calls[0].outOfBounds);
      ChangesTimer(keepAngleMs, NextTimer(d, timer, calls[0].time), calls[1..]);
    }
  }

  /** Each re-sample in `cs` comes more than `keepAngleMs` after the change
      before it. */
  predicate Spaced(keepAngleMs: int, cs: seq<Change>) {
    forall j :: 0 < j < |cs| && cs[j].decision.Resample? ==> cs[j].time - cs[j - 1].time > keepAngleMs
  }

  lemma SpacedCons(keepAngleMs: int, c: Change, rest: seq<Change>)
    requires Spaced(keepAngleMs, rest)
    requires rest != [] && rest[0].decision.Resample? ==> rest[0].time - c.time > keepAngleMs
    ensures Spaced(keepAngleMs, [c] + rest)
  {
    var cs := [c] + rest;
    forall j | 0 < j < |cs| && cs[j].decision.Resample?
      ensures cs[j].time - cs[j - 1].time > keepAngleMs
    {
      assert cs[j] == rest[j - 1];
      if j > 1 {
        assert cs[j - 1] == rest[j - 2];
      }
    }
  }

  /** Re-samples are spaced out: each one comes more than `keep_angle_ms`
      after the heading change before it, whatever the positions. In
      particular, while the receiver stays inside its box, two consecutive
      re-samples are more than `keep_angle_ms` apart. */
  lemma {:induction false} ResamplesSpacedOut(keepAngleMs: int, timer: int, calls: seq<Call>)
    ensures Spaced(keepAngleMs, Changes(keepAngleMs, timer, calls))
    decreases |calls|
  {
    if calls != [] {
      var d := Decide(keepAngleMs, timer, calls[0].time, calls[0].outOfBounds);
      var next := NextTimer(d, timer, calls[0].time);
      ResamplesSpacedOut(keepAngleMs, next, calls[1..]);
      if !d.Hold? {
        ChangesTimer(keepAngleMs, next, calls[1..]);
        SpacedCons(keepAngleMs, Change(calls[0].time, d), Changes(keepAngleMs, next, calls[1..]));
      }
    }
  }
}
