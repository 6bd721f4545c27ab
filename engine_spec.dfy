/** What a simulation run produces (classes/simulation.py, `start`), as
    functions of its inputs. The engine in module Engine is proved to
    produce exactly this. Time advances by one millisecond per iteration,
    so tick t is both the t-th iteration (counting from 0) and the current
    time in milliseconds. */
module EngineSpec {
  import opened Wrappers
  import opened Numerics
  import opened Stations
  import opened LogDistance
  import opened DanisCemgil
  import opened DanisCemgilCustom

  /** A CSV cell: the engine writes integers, floats and station MACs. */
  datatype Cell = IntCell(i: int) | RealCell(r: real) | TextCell(text: string)

  type Row = seq<Cell>

  const RssiHeader: Row :=
    [TextCell("timestamp"), TextCell("position_x"), TextCell("position_y"), TextCell("station_mac"), TextCell("rssi")]

  const TrajectoryHeader: Row :=
    [TextCell("step"), TextCell("timestamp"), TextCell("position_x"), TextCell("position_y")]

  /** `milliseconds_per_iteration`. */
  const MillisecondsPerIteration: int := 1

  /** The trajectory model chosen for the run. */
  datatype TrajectoryModel =
    | Base(model: DanisCemgil2017)
    | Custom(keepAngleMs: int, s: real)

  /** The receiver between two iterations: its rounded position, its
      heading, and (for the cooldown model) the time of its last heading
      change. */
  datatype Receiver = Receiver(x: real, y: real, angle: real, timer: int)

  /** The random draws of a run: the RSSI draws of station i at tick t, and
      the standard-normal heading draw of the position update at time t. */
  datatype Draws = Draws(rssi: (nat, nat) -> RssiDraws, heading: nat -> real)

  /** An RSSI simulator module: the reading a station gives at a receiver
      position, from that call's draws. */
  type RssiModule = (Station, real, real, RssiDraws) -> Result<Option<int>, RssiError>

  /** The log-distance module. */
  function LogDistanceModule(m: MathLib): RssiModule {
    (station: Station, x: real, y: real, draws: RssiDraws) => CalculateRssi(m, station, x, y, draws)
  }

  /** Everything a run depends on besides the stations' scheduling state. */
  datatype Setup = Setup(
    math: MathLib,
    rssi: RssiModule,
    stations: seq<Station>,
    bounds: Bounds,
    speed: real,
    ticks: nat,
    model: TrajectoryModel,
    draws: Draws)

  /** The number of iterations of a run lasting `maxTimeMs` milliseconds:
      the loop stops after the first iteration whose successor time reaches
      `maxTimeMs`, so a positive duration gives at least one iteration and
      exactly the ticks below `maxTimeMs`. */
  function IterationCount(maxTimeMs: real): (n: nat)
    requires maxTimeMs > 0.0
    ensures n >= 1 && n as real >= maxTimeMs && (n - 1) as real < maxTimeMs
  {
    var f := maxTimeMs.Floor;
    if f as real == maxTimeMs then f else f + 1
  }

  /** The start of a run: the initial position rounded to 9 decimals, the
      initial heading in radians, the cooldown timer at 0. */
  function InitialReceiver(x: real, y: real, angleDegrees: real): (r: Receiver)
    ensures RoundPosition(r.x) == r.x && RoundPosition(r.y) == r.y
    ensures -0.5 / PositionScale <= r.x - x <= 0.5 / PositionScale
    ensures -0.5 / PositionScale <= r.y - y <= 0.5 / PositionScale
    ensures r.angle == Radians(angleDegrees) && r.timer == 0
  {
    RoundPositionIdempotent(x);
    RoundPositionIdempotent(y);
    RoundPositionError(x);
    RoundPositionError(y);
    Receiver(RoundPosition(x), RoundPosition(y), Radians(angleDegrees), 0)
  }

  /** One position update at `time` (the time after the increment): the
      model's step, with the position rounded to 9 decimals. */
  function Advance(s: Setup, r: Receiver, time: nat): (next: Receiver)
    ensures RoundPosition(next.x) == next.x && RoundPosition(next.y) == next.y
    ensures s.model.Base? ==> next.timer == r.timer
  {
    var (p, timer) :=
      match s.model
      case Base(model) =>
        (model.CalculatePosition(s.math, time, MillisecondsPerIteration, r.angle, r.x, r.y,
                                 s.bounds, s.speed, s.draws.heading(time)), r.timer)
      case Custom(keep, sd) =>
        Step(s.math, keep, sd, r.timer, time, MillisecondsPerIteration, r.angle, r.x, r.y,
             s.bounds, s.speed, s.draws.heading(time));
    RoundPositionIdempotent(p.x);
    RoundPositionIdempotent(p.y);
    Receiver(RoundPosition(p.x), RoundPosition(p.y), p.angle, timer)
  }

  /** The receiver at tick t. */
  function ReceiverAt(s: Setup, r0: Receiver, t: nat): Receiver
    decreases t
  {
    if t == 0 then r0 else Advance(s, ReceiverAt(s, r0, t - 1), t)
  }

  function TrajectoryRow(t: nat, r: Receiver): Row {
    [IntCell(t + 1), RealCell(t as real / 1000.0), RealCell(r.x), RealCell(r.y)]
  }

  function RssiRow(t: nat, r: Receiver, mac: string, rssi: int): Row {
    [RealCell(t as real / 1000.0), RealCell(r.x), RealCell(r.y), TextCell(mac), IntCell(rssi)]
  }

  /** A station is due at t when its next transmission time has come. */
  predicate IsDue(s: Setup, lasts: seq<int>, t: int, i: nat)
    requires |lasts| == |s.stations| && i < |s.stations|
  {
    lasts[i] + s.stations[i].frequency <= t
  }

  /** The indices of the first n stations that are due at t, in list order. */
  function Due(s: Setup, lasts: seq<int>, t: int, n: nat): (due: seq<nat>)
    requires n <= |s.stations| == |lasts|
    ensures forall k :: 0 <= k < |due| ==> due[k] < n
    decreases n
  {
    if n == 0 then []
    else
      var pre := Due(s, lasts, t, n - 1);
      if IsDue(s, lasts, t, n - 1) then pre + [n - 1] else pre
  }

  /** The due list holds exactly the due stations, each once, in list
      order. */
  lemma {:induction false} DueExactly(s: Setup, lasts: seq<int>, t: int, n: nat)
    requires n <= |s.stations| == |lasts|
    ensures forall k :: 0 <= k < |Due(s, lasts, t, n)| ==> IsDue(s, lasts, t, Due(s, lasts, t, n)[k])
    ensures forall i :: 0 <= i < n && IsDue(s, lasts, t, i) ==> i in Due(s, lasts, t, n)
    ensures forall j, k :: 0 <= j < k < |Due(s, lasts, t, n)| ==> Due(s, lasts, t, n)[j] < Due(s, lasts, t, n)[k]
    decreases n
  {
    if n > 0 {
      DueExactly(s, lasts, t, n - 1);
    }
  }

  /** The state after one tick's station loop: the last transmission times,
      the RSSI rows written so far, and the error that stopped the run, if
      any. */
  datatype TickOutcome = TickOutcome(lasts: seq<int>, rows: seq<Row>, failure: Option<RssiError>)

  /** One station's turn in the station loop of tick t: a failed reading
      stops everything before the station is stamped; otherwise the station
      is stamped with t and a reading that was not lost becomes a row. */
  function Visit(s: Setup, t: nat, r: Receiver, i: nat, lasts: seq<int>, rows: seq<Row>): (o: TickOutcome)
    requires |lasts| == |s.stations| && i < |s.stations|
    ensures |o.lasts| == |lasts|
  {
    var reading := s.rssi(s.stations[i], r.x, r.y, s.draws.rssi(t, i));
    if reading.Failure? then TickOutcome(lasts, rows, Some(reading.error))
    else if reading.value.None? then TickOutcome(lasts[i := t], rows, None)
    else TickOutcome(lasts[i := t], rows + [RssiRow(t, r, s.stations[i].mac, reading.value.value)], None)
  }

  /** The station loop of tick t over the due stations `due`, in order,
      stopping at the first failure. */
  function ProcessDue(s: Setup, t: nat, r: Receiver, due: seq<nat>, lasts: seq<int>, rows: seq<Row>): (o: TickOutcome)
    requires |lasts| == |s.stations|
    requires forall k :: 0 <= k < |due| ==> due[k] < |s.stations|
    ensures |o.lasts| == |lasts|
    decreases |due|
  {
    if due == [] then TickOutcome(lasts, rows, None)
    else
      var o := Visit(s, t, r, due[0], lasts, rows);
      if o.failure.Some? then o else ProcessDue(s, t, r, due[1..], o.lasts, o.rows)
  }

  /** Tick t's station loop over the stations due at t. */
  function Tick(s: Setup, t: nat, r: Receiver, lasts: seq<int>, rows: seq<Row>): (o: TickOutcome)
    requires |lasts| == |s.stations|
    ensures |o.lasts| == |lasts|
  {
    ProcessDue(s, t, r, Due(s, lasts, t, |s.stations|), lasts, rows)
  }

  /** The state when a run ends: the stations' last transmission times, the
      rows of both files (headers aside), and the error that ended the run
      early, if any. */
  datatype Progress = Progress(lasts: seq<int>, trajectoryRows: seq<Row>, rssiRows: seq<Row>, failure: Option<RssiError>)

  /** The run from tick t on, given the state reached so far. */
  function RunFrom(s: Setup, t: nat, r: Receiver, lasts: seq<int>, trajectoryRows: seq<Row>, rssiRows: seq<Row>): (p: Progress)
    requires |lasts| == |s.stations| && t < s.ticks
    ensures |p.lasts| == |lasts|
    decreases s.ticks - t
  {
    var trajectoryRows' := trajectoryRows + [TrajectoryRow(t, r)];
    var o := Tick(s, t, r, lasts, rssiRows);
    if o.failure.Some? then Progress(o.lasts, trajectoryRows', o.rows, o.failure)
    else if t + 1 >= s.ticks then Progress(o.lasts, trajectoryRows', o.rows, None)
    else RunFrom(s, t + 1, Advance(s, r, t + 1), o.lasts, trajectoryRows', o.rows)
  }

  /** A whole run from the initial receiver and scheduling state. */
  function Run(s: Setup, r0: Receiver, lasts0: seq<int>): (p: Progress)
    requires |lasts0| == |s.stations| && s.ticks >= 1
    ensures |p.lasts| == |lasts0|
  {
    RunFrom(s, 0, r0, lasts0, [], [])
  }
}
