/** The simulation engine (classes/simulation.py): the main loop that moves
    the receiver, asks due stations for a reading, and writes both CSV
    files. */
module Engine {
  import opened Wrappers
  import opened Numerics
  import opened Stations
  import opened LogDistance
  import opened DanisCemgil
  import opened DanisCemgilCustom
  import opened Configuration
  import opened CsvWriter
  import opened EngineSpec
  import opened EngineProperties

  /** The last transmission time of each station, in list order. */
  function LastsOf(stations: seq<Station>): (lasts: seq<int>)
    reads stations
    ensures |lasts| == |stations|
    ensures forall i :: 0 <= i < |stations| ==> lasts[i] == stations[i].lastTransmissionTimestamp
  {
    if stations == [] then []
    else LastsOf(stations[..|stations| - 1]) + [stations[|stations| - 1].lastTransmissionTimestamp]
  }

  /** A writer is on, keeps its invariant, and has accepted `header`
      followed by `rows`. */
  ghost predicate Holds(w: BufferedCsvFileWriter<Row>, header: Row, rows: seq<Row>)
    reads w
  {
    w.Valid() && w.enabled && w.Contents() == [header] + rows
  }

  /** Creates a writer for `filename` and writes the header row. */
  method OpenWriter(filename: string, header: Row) returns (w: BufferedCsvFileWriter<Row>)
    ensures fresh(w) && w.filename == filename && Holds(w, header, [])
  {
    w := new BufferedCsvFileWriter(filename);
    w.Write(header);
  }

  /** The cooldown model object, when the run uses that model, is set up
      with the model's parameters and holds `timer`. */
  ghost predicate TimerHolds(model: TrajectoryModel, custom: DanisCemgil2017Custom?, timer: int)
    reads custom
  {
    model.Custom? ==>
      && custom != null
      && custom.keepAngleMs == model.keepAngleMs && custom.s == model.s && custom.lastAngleChangeTime == timer
  }

  /** The values the main loop works with agree with the run's setup. */
  ghost predicate Agrees(s: Setup, m: MathLib, rssiModule: RssiModule, model: TrajectoryModel, draws: Draws,
                   maxTimeMilliseconds: real, bounds: Bounds, speed: real)
  {
    && s.math == m && s.rssi == rssiModule && s.model == model && s.draws == draws
    && s.bounds == bounds && s.speed == speed
    && maxTimeMilliseconds > 0.0 && s.ticks == IterationCount(maxTimeMilliseconds)
  }

  /** The `finally` block: the RSSI writer is closed, then the trajectory
      writer, so that everything written is in the files. */
  method CloseBoth(rssiWriter: BufferedCsvFileWriter<Row>, trajectoryWriter: BufferedCsvFileWriter<Row>,
                   ghost rssiRows: seq<Row>, ghost trajectoryRows: seq<Row>)
    requires rssiWriter != trajectoryWriter
    requires Holds(rssiWriter, RssiHeader, rssiRows) && Holds(trajectoryWriter, TrajectoryHeader, trajectoryRows)
    modifies rssiWriter, trajectoryWriter
    ensures rssiWriter.file == [RssiHeader] + rssiRows && rssiWriter.buffer == []
    ensures trajectoryWriter.file == [TrajectoryHeader] + trajectoryRows && trajectoryWriter.buffer == []
  {
    rssiWriter.Close();
    trajectoryWriter.Close();
  }

  class Simulation {
    const config: Config
    const stations: seq<Station>
    const outputDir: string
    /** `position_rounding`: positions are rounded to this many decimals. */
    const positionRounding: nat

    constructor (config: Config, stations: seq<Station>, outputDir: string)
      ensures this.config == config && this.stations == stations && this.outputDir == outputDir
      ensures positionRounding == PositionDigits && Pow10(positionRounding) == PositionScale
    {
      this.config := config;
      this.stations := stations;
      this.outputDir := outputDir;
      positionRounding := PositionDigits;
      PositionScaleIsPow10();
    }

    /** The stations are distinct objects, each keeping its scheduling
        invariant, and their last transmission times are `lasts`. */
    ghost predicate Ready(lasts: seq<int>)
      reads stations
    {
      && (forall i, j :: 0 <= i < j < |stations| ==> stations[i] != stations[j])
      && (forall i :: 0 <= i < |stations| ==> stations[i].Valid())
      && |lasts| == |stations|
      && (forall i :: 0 <= i < |stations| ==> stations[i].lastTransmissionTimestamp == lasts[i])
    }

    /** The run that an accepted configuration describes. */
    function SetupFor(m: MathLib, model: TrajectoryModel, draws: Draws): (s: Setup)
      requires config.Accepted()
      ensures s.stations == stations && s.ticks >= 1 && s.math == m && s.rssi == LogDistanceModule(m)
      ensures s.model == model && s.draws == draws
      // The receiver is kept in the box [margin, dim - margin], which is not empty.
      ensures s.bounds.minX == s.bounds.minY == config.marginMeters >= 0.0
      ensures s.bounds.maxX == config.DimX() - config.marginMeters >= s.bounds.minX
      ensures s.bounds.maxY == config.DimY() - config.marginMeters >= s.bounds.minY
      ensures s.speed == config.speedMetersSecond > 0.0
      // One tick per millisecond of the configured duration, rounded up.
      ensures (s.ticks - 1) as real < config.simulationDurationSeconds * 1000.0 <= s.ticks as real
    {
      AcceptedScenario(config);
      var margin := config.marginMeters;
      Setup(m, LogDistanceModule(m), stations, Bounds(margin, config.DimX() - margin, margin, config.DimY() - margin),
            config.speedMetersSecond, IterationCount(config.simulationDurationSeconds * 1000.0), model, draws)
    }

    function StartReceiver(): Receiver
      requires config.Accepted()
    {
      InitialReceiver(config.InitialX(), config.InitialY(), config.initialAngleDegrees)
    }

    /** With an accepted configuration and every station carrying Tx and n
        and a complete packet-loss record, a run never stops on an error:
        the trajectory file gets one row per iteration, and every RSSI row
        holds a reading of at least -100 dBm taken at one of them. */
    lemma ConfiguredRunCompletes(m: MathLib, model: TrajectoryModel, draws: Draws, lasts0: seq<int>)
      requires config.Accepted() && |lasts0| == |stations|
      requires forall i :: 0 <= i < |stations| ==> Configured(stations[i])
      ensures var s := SetupFor(m, model, draws);
        var p := Run(s, StartReceiver(), lasts0);
        && p.failure.None?
        && p.trajectoryRows == Trajectory(s, StartReceiver(), s.ticks)
        && RowsOk(p.rssiRows, s.ticks)
    {
      var s := SetupFor(m, model, draws);
      LogDistanceReliable(s, m);
      ReliableRunSucceeds(s, StartReceiver(), lasts0);
      RunTrajectory(s, StartReceiver(), lasts0);
      LogDistanceFloored(s, m);
      RssiRowsOk(s, StartReceiver(), lasts0);
    }

    /** The list of stations due at `currentTime`, built as the engine's
        list comprehension does. */
    method DueStations(ghost s: Setup, ghost lasts: seq<int>, currentTime: int) returns (due: seq<nat>)
      requires s.stations == stations && Ready(lasts)
      ensures due == Due(s, lasts, currentTime, |stations|)
    {
      due := [];
      var i := 0;
      while i < |stations|
        invariant 0 <= i <= |stations|
        invariant due == Due(s, lasts, currentTime, i)
      {
        if stations[i].nextTransmissionTimestamp <= currentTime {
          due := due + [i];
        }
        i := i + 1;
      }
    }

    /** The station loop of one iteration: each due station gets a reading
        at the receiver's position; a failed reading stops the loop before
        its station is stamped; otherwise the station is stamped with the
        current time and a reading that was not lost is written. */
    method ReadStations(ghost s: Setup, rssiModule: RssiModule, draws: Draws, currentTime: nat, posX: real, posY: real,
                        ghost r: Receiver, rssiWriter: BufferedCsvFileWriter<Row>,
                        ghost lasts: seq<int>, ghost rows: seq<Row>)
      returns (failure: Option<RssiError>, ghost lasts': seq<int>, ghost rows': seq<Row>)
      requires s.stations == stations && s.rssi == rssiModule && s.draws == draws && Ready(lasts)
      requires r.x == posX && r.y == posY
      requires Holds(rssiWriter, RssiHeader, rows)
      modifies stations, rssiWriter
      ensures Ready(lasts') && Holds(rssiWriter, RssiHeader, rows')
      ensures Tick(s, currentTime, r, lasts, rows) == TickOutcome(lasts', rows', failure)
    {
      var due := DueStations(s, lasts, currentTime);
      lasts' := lasts;
      rows' := rows;
      failure := None;
      var k := 0;
      while k < |due|
        invariant 0 <= k <= |due| && failure == None
        invariant Ready(lasts') && Holds(rssiWriter, RssiHeader, rows')
        invariant ProcessDue(s, currentTime, r, due[k..], lasts', rows')
               == ProcessDue(s, currentTime, r, due, lasts, rows)
      {
        assert due[k..][0] == due[k] && due[k..][1..] == due[k + 1..];
        failure, lasts', rows' := ReadStation(s, rssiModule, draws, currentTime, posX, posY, r, rssiWriter, due[k], lasts', rows');
        if failure.Some? {
          return;
        }
        k := k + 1;
      }
    }

    /** One due station of the station loop: its reading, then (unless the
        reading failed) its stamp and, for a reading that was not lost, its
        row. */
    method ReadStation(ghost s: Setup, rssiModule: RssiModule, draws: Draws, currentTime: nat, posX: real, posY: real,
                       ghost r: Receiver, rssiWriter: BufferedCsvFileWriter<Row>, i: nat,
                       ghost lasts: seq<int>, ghost rows: seq<Row>)
      returns (failure: Option<RssiError>, ghost lasts': seq<int>, ghost rows': seq<Row>)
      requires s.stations == stations && s.rssi == rssiModule && s.draws == draws && Ready(lasts)
      requires r.x == posX && r.y == posY && i < |stations|
      requires Holds(rssiWriter, RssiHeader, rows)
      modifies stations, rssiWriter
      ensures Ready(lasts') && Holds(rssiWriter, RssiHeader, rows')
      ensures Visit(s, currentTime, r, i, lasts, rows) == TickOutcome(lasts', rows', failure)
    {
      lasts', rows' := lasts, rows;
      var station := stations[i];
      var rssi := rssiModule(station, posX, posY, draws.rssi(currentTime, i));
      if rssi.Failure? {
        failure := Some(rssi.error);
        return;
      }
      failure := None;
      station.SetLastTransmissionTimestamp(currentTime);
      lasts' := lasts[i := currentTime];
      if rssi.value.Some? {
        rssiWriter.Write([RealCell(currentTime as real / 1000.0), RealCell(posX), RealCell(posY),
                          TextCell(station.mac), IntCell(rssi.value.value)]);
        rows' := rows + [RssiRow(currentTime, r, station.mac, rssi.value.value)];
      }
    }

    /** The position update at `currentTime` (the time after the
        increment), rounded to 9 decimals; the cooldown model updates its
        timer. */
    method NextPosition(ghost s: Setup, m: MathLib, model: TrajectoryModel, custom: DanisCemgil2017Custom?,
                        currentTime: nat, angle: real, posX: real, posY: real, bounds: Bounds, speed: real,
                        draws: Draws, ghost r: Receiver)
      returns (x: real, y: real, angle': real, ghost r': Receiver)
      requires s.math == m && s.model == model && s.bounds == bounds && s.speed == speed && s.draws == draws
      requires r == Receiver(posX, posY, angle, r.timer) && TimerHolds(model, custom, r.timer)
      modifies if model.Custom? then {custom} else {}
      ensures r' == Advance(s, r, currentTime) && r' == Receiver(x, y, angle', r'.timer)
      ensures TimerHolds(model, custom, r'.timer)
    {
      var p: Pose;
      if model.Base? {
        p := model.model.CalculatePosition(m, currentTime, MillisecondsPerIteration, angle, posX, posY, bounds, speed,
                                           draws.heading(currentTime));
      } else {
        p := custom.CalculatePosition(m, currentTime, MillisecondsPerIteration, angle, posX, posY, bounds, speed,
                                      draws.heading(currentTime));
      }
      x := RoundPosition(p.x);
      y := RoundPosition(p.y);
      angle' := p.angle;
      r' := Advance(s, r, currentTime);
    }

    /** The first half of an iteration: the trajectory row, then the
        station loop. */
    method Report(ghost s: Setup, rssiModule: RssiModule, draws: Draws, iteration: int, currentTime: nat,
                  posX: real, posY: real, ghost r: Receiver,
                  rssiWriter: BufferedCsvFileWriter<Row>, trajectoryWriter: BufferedCsvFileWriter<Row>,
                  ghost lasts: seq<int>, ghost trajectoryRows: seq<Row>, ghost rssiRows: seq<Row>)
      returns (failure: Option<RssiError>, ghost lasts': seq<int>, ghost trajectoryRows': seq<Row>, ghost rssiRows': seq<Row>)
      requires s.stations == stations && s.rssi == rssiModule && s.draws == draws && Ready(lasts)
      requires r.x == posX && r.y == posY && iteration == currentTime + 1 && rssiWriter != trajectoryWriter
      requires Holds(rssiWriter, RssiHeader, rssiRows) && Holds(trajectoryWriter, TrajectoryHeader, trajectoryRows)
      modifies stations, rssiWriter, trajectoryWriter
      ensures Ready(lasts')
      ensures Holds(rssiWriter, RssiHeader, rssiRows') && Holds(trajectoryWriter, TrajectoryHeader, trajectoryRows')
      ensures trajectoryRows' == trajectoryRows + [TrajectoryRow(currentTime, r)]
      ensures Tick(s, currentTime, r, lasts, rssiRows) == TickOutcome(lasts', rssiRows', failure)
    {
      trajectoryWriter.Write([IntCell(iteration), RealCell(currentTime as real / 1000.0), RealCell(posX), RealCell(posY)]);
      trajectoryRows' := trajectoryRows + [TrajectoryRow(currentTime, r)];
      ghost var written := trajectoryWriter.Contents();
      failure, lasts', rssiRows' := ReadStations(s, rssiModule, draws, currentTime, posX, posY, r, rssiWriter, lasts, rssiRows);
      assert trajectoryWriter.Contents() == written;
    }

    /** One pass through the body of the main loop: the trajectory row, the
        station loop, the time step and, unless the run ends here, the
        position update. It takes the run from tick `currentTime` either to
        its end or to the next tick. */
    method Iterate(ghost s: Setup, m: MathLib, rssiModule: RssiModule, model: TrajectoryModel, draws: Draws,
                   maxTimeMilliseconds: real, bounds: Bounds, speed: real, custom: DanisCemgil2017Custom?,
                   rssiWriter: BufferedCsvFileWriter<Row>, trajectoryWriter: BufferedCsvFileWriter<Row>,
                   iteration: int, currentTime: nat, posX: real, posY: real, angle: real, ghost r: Receiver,
                   ghost lasts: seq<int>, ghost trajectoryRows: seq<Row>, ghost rssiRows: seq<Row>)
      returns (done: bool, failure: Option<RssiError>, time': nat, x': real, y': real, angle': real,
               ghost r': Receiver, ghost lasts': seq<int>, ghost trajectoryRows': seq<Row>, ghost rssiRows': seq<Row>)
      requires s.stations == stations && Agrees(s, m, rssiModule, model, draws, maxTimeMilliseconds, bounds, speed)
      requires Ready(lasts) && rssiWriter != trajectoryWriter
      requires Holds(rssiWriter, RssiHeader, rssiRows) && Holds(trajectoryWriter, TrajectoryHeader, trajectoryRows)
      requires TimerHolds(model, custom, r.timer)
      requires currentTime < s.ticks && iteration == currentTime + 1 && r == Receiver(posX, posY, angle, r.timer)
      modifies stations, rssiWriter, trajectoryWriter, if model.Custom? then {custom} else {}
      ensures Ready(lasts')
      ensures Holds(rssiWriter, RssiHeader, rssiRows') && Holds(trajectoryWriter, TrajectoryHeader, trajectoryRows')
      ensures TimerHolds(model, custom, r'.timer)
      ensures done ==>
        RunFrom(s, currentTime, r, lasts, trajectoryRows, rssiRows) == Progress(lasts', trajectoryRows', rssiRows', failure)
      ensures !done ==>
        && failure == None && time' == currentTime + 1 && time' < s.ticks
        && r' == Receiver(x', y', angle', r'.timer)
        && RunFrom(s, currentTime, r, lasts, trajectoryRows, rssiRows) == RunFrom(s, time', r', lasts', trajectoryRows', rssiRows')
    {
      x', y', angle', r' := posX, posY, angle, r;
      failure, lasts', trajectoryRows', rssiRows' :=
        Report(s, rssiModule, draws, iteration, currentTime, posX, posY, r, rssiWriter, trajectoryWriter,
               lasts, trajectoryRows, rssiRows);
      time' := currentTime + MillisecondsPerIteration;
      if failure.Some? {
        done := true;
        return;
      }
      if time' as real >= maxTimeMilliseconds {
        done := true;
        return;
      }
      done := false;
      x', y', angle', r' := NextPosition(s, m, model, custom, time', angle, posX, posY, bounds, speed, draws, r);
    }

    /** The main loop of `start`, from the first iteration to the one that
        ends the run. */
    method MainLoop(ghost s: Setup, m: MathLib, rssiModule: RssiModule, model: TrajectoryModel, draws: Draws,
                    maxTimeMilliseconds: real, bounds: Bounds, speed: real, posX0: real, posY0: real, angle0: real,
                    custom: DanisCemgil2017Custom?,
                    rssiWriter: BufferedCsvFileWriter<Row>, trajectoryWriter: BufferedCsvFileWriter<Row>,
                    ghost lasts0: seq<int>)
      returns (outcome: Outcome<RssiError>, ghost lasts: seq<int>)
      requires s.stations == stations && Agrees(s, m, rssiModule, model, draws, maxTimeMilliseconds, bounds, speed)
      requires Ready(lasts0) && rssiWriter != trajectoryWriter
      requires Holds(rssiWriter, RssiHeader, []) && Holds(trajectoryWriter, TrajectoryHeader, [])
      requires TimerHolds(model, custom, 0)
      modifies stations, rssiWriter, trajectoryWriter, if model.Custom? then {custom} else {}
      ensures var p := Run(s, Receiver(posX0, posY0, angle0, 0), lasts0);
        && Ready(lasts) && lasts == p.lasts
        && Holds(rssiWriter, RssiHeader, p.rssiRows) && Holds(trajectoryWriter, TrajectoryHeader, p.trajectoryRows)
        && outcome == (if p.failure.Some? then Fail(p.failure.value) else Pass)
    {
      ghost var final := Run(s, Receiver(posX0, posY0, angle0, 0), lasts0);
      var currentTime: nat := 0;
      var iteration := 0;
      var posX, posY, angle := posX0, posY0, angle0;
      ghost var r := Receiver(posX0, posY0, angle0, 0);
      lasts := lasts0;
      ghost var trajectoryRows: seq<Row> := [];
      ghost var rssiRows: seq<Row> := [];

      while true
        invariant Ready(lasts)
        invariant Holds(rssiWriter, RssiHeader, rssiRows) && Holds(trajectoryWriter, TrajectoryHeader, trajectoryRows)
        invariant TimerHolds(model, custom, r.timer)
        invariant currentTime < s.ticks && iteration == currentTime && r == Receiver(posX, posY, angle, r.timer)
        invariant RunFrom(s, currentTime, r, lasts, trajectoryRows, rssiRows) == final
        decreases s.ticks - currentTime
      {
        iteration := iteration + 1;
        var done, failure;
        done, failure, currentTime, posX, posY, angle, r, lasts, trajectoryRows, rssiRows :=
          Iterate(s, m, rssiModule, model, draws, maxTimeMilliseconds, bounds, speed, custom, rssiWriter, trajectoryWriter,
                  iteration, currentTime, posX, posY, angle, r, lasts, trajectoryRows, rssiRows);
        if done {
          return if failure.Some? then Fail(failure.value) else Pass, lasts;
        }
      }
    }

    /** Under `Ready`, the recorded timestamps are exactly `lasts`. */
    lemma LastsOfReady(lasts: seq<int>)
      requires Ready(lasts)
      ensures LastsOf(stations) == lasts
    {
    }

    /** The variables `start` derives from the configuration: the time
        limit, the margin box, the rounded initial position, the speed and
        the initial heading in radians. */
    method Scenario(ghost s: Setup)
      returns (maxTimeMilliseconds: real, bounds: Bounds, posX: real, posY: real, speed: real, angle: real)
      requires config.Accepted() && s == SetupFor(s.math, s.model, s.draws)
      ensures Agrees(s, s.math, s.rssi, s.model, s.draws, maxTimeMilliseconds, bounds, speed)
      ensures Receiver(posX, posY, angle, 0) == StartReceiver()
    {
      AcceptedScenario(config);
      maxTimeMilliseconds := config.simulationDurationSeconds * 1000.0;
      var dimX, dimY := config.DimX(), config.DimY();
      var dimMargins := config.marginMeters;
      bounds := Bounds(dimMargins, dimX - dimMargins, dimMargins, dimY - dimMargins);
      posX := RoundPosition(config.InitialX());
      posY := RoundPosition(config.InitialY());
      speed := config.speedMetersSecond;
      angle := Radians(config.initialAngleDegrees);
    }

    /** `start`: runs the simulation and closes both writers, also when a
        reading fails. The writers, their files and the stations' scheduling
        state end up exactly as `Run` says; the outcome reports the error
        that ended the run early, if any. */
    method Start(m: MathLib, model: TrajectoryModel, draws: Draws, rssiFileName: string, trajectoryFileName: string)
      returns (outcome: Outcome<RssiError>, rssiWriter: BufferedCsvFileWriter<Row>, trajectoryWriter: BufferedCsvFileWriter<Row>)
      requires config.Accepted() && Ready(LastsOf(stations))
      modifies stations
      ensures fresh(rssiWriter) && fresh(trajectoryWriter)
      ensures var p := Run(SetupFor(m, model, draws), StartReceiver(), old(LastsOf(stations)));
        && Ready(p.lasts) && LastsOf(stations) == p.lasts
        && rssiWriter.filename == rssiFileName && trajectoryWriter.filename == trajectoryFileName
        && rssiWriter.file == [RssiHeader] + p.rssiRows && rssiWriter.buffer == []
        && trajectoryWriter.file == [TrajectoryHeader] + p.trajectoryRows && trajectoryWriter.buffer == []
        && outcome == (if p.failure.Some? then Fail(p.failure.value) else Pass)
    {
      ghost var s := SetupFor(m, model, draws);
      ghost var lasts0 := LastsOf(stations);
      ghost var final := Run(s, StartReceiver(), lasts0);

      var maxTimeMilliseconds, bounds, posX, posY, speed, angle := Scenario(s);

      rssiWriter := OpenWriter(rssiFileName, RssiHeader);
      trajectoryWriter := OpenWriter(trajectoryFileName, TrajectoryHeader);

      var rssiModule := LogDistanceModule(m);
      var custom: DanisCemgil2017Custom? := null;
      if model.Custom? {
        custom := new DanisCemgil2017Custom(model.keepAngleMs, model.s);
      }

      ghost var lasts;
      outcome, lasts := MainLoop(s, m, rssiModule, model, draws, maxTimeMilliseconds, bounds, speed, posX, posY, angle,
                                 custom, rssiWriter, trajectoryWriter, lasts0);

      CloseBoth(rssiWriter, trajectoryWriter, final.rssiRows, final.trajectoryRows);
      LastsOfReady(lasts);
    }
  }
}
