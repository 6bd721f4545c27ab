# Indoor positioning simulator: a verified model of its core

This project models, in Dafny, the core of a Python simulator of an indoor
positioning scenario. A receiver walks a random trajectory through a room.
Access-point stations transmit periodically. Each transmission the receiver
hears becomes a log-distance RSSI reading. Two CSV files are written: one for
the trajectory and one for the readings.

The model covers:

- **The simulation engine** (`Engine.Simulation.Start`, simulation.dfy). It is
  imperative, like `Simulation.start`.
  - A `while` loop moves through integer milliseconds.
  - Each tick it writes a trajectory row. It then selects the due stations in
    list order, asks the RSSI module for a reading from each, and stamps each
    due station in place.
  - Time advances, and the receiver moves only while the run is not over.
  - Both writers are closed on every exit.
  - The engine is proved equal to the functional description `EngineSpec.Run`
    (engine_spec.dfy). Properties of that description are proved in
    engine_properties.dfy: the iteration count, the trajectory rows, the firing
    schedule, absence of errors and the −100 dBm floor.
- **The station scheduling record**, in both copies (stations.dfy,
  legacy_stations.dfy). It is a class whose setter keeps
  `next == last + frequency`.
- **The log-distance RSSI model** with its packet-loss sub-model
  (log_distance.dfy), and the three loss curves (function_models.dfy).
- **The Danis & Cemgil trajectory model** (danis_cemgil.dfy). Its cooldown
  variant is a class with its timer field (danis_cemgil_custom.dfy).
- **The configuration** (config.dfy). Its constructor applies the defaults.
  The validator states each rule separately and returns the first rule broken.
- **The buffered CSV writer**, in both copies (csv_writer.dfy,
  legacy_csv_writer.dfy). The file is modelled as a sequence of rows.

Numbers and randomness are modelled as follows:

- Floating-point numbers are exact `real`s.
- `sqrt`, `log10`, `exp`, `cos` and `sin` are fields of a `MathLib` value. Where
  a lemma needs a fact about one of them (for example `exp(0) = 1`), it states
  that fact as a precondition.
- Python's `round` (ties to even) is defined exactly, and so is `round(x, 9)`.
- Every random draw is a parameter:
  - the `randint(0, 100)` integer and the standard-normal sample of an RSSI
    call, indexed by tick and station index;
  - the standard-normal heading sample, indexed by time;
  - the uniform default initial angle.
- `np.random.normal(0, s)` is `s * z` for a standard-normal `z`.

## Model

| member | source | states |
|---|---|---|
| Engine.Simulation.constructor | classes/simulation.py:28-40 | keeps the configuration, the station list and the output directory; `position_rounding` is 9, and 10 to that power is the scale `RoundPosition` uses |
| Engine.Simulation.SetupFor | classes/simulation.py:56-71 | an accepted configuration gives at least one iteration, one per millisecond of the duration rounded up; the box is [margin, dim − margin] on each axis and not empty; the speed is the configured positive speed; the stations, maths and draws of the run; the log-distance module |
| Engine.Simulation.Scenario | classes/simulation.py:56-77 | the time limit is positive and gives the run's iteration count; the bounds are `[margin, dim − margin]` on each axis; the speed; the initial position is rounded to 9 decimals and the angle is converted to radians |
| Engine.OpenWriter | classes/simulation.py:87-95 | a new enabled writer for the file whose only row is the header |
| Engine.Simulation.DueStations | classes/simulation.py:119 | the list comprehension returns exactly `Due`: the stations whose next transmission time has come, in list order |
| Engine.Simulation.ReadStation | classes/simulation.py:121-130 | one due station: an error leaves the station unstamped and stops the loop; otherwise the station is stamped with the current time; a row `[t/1000, x, y, mac, rssi]` is written iff the reading is not None |
| Engine.Simulation.ReadStations | classes/simulation.py:119-130 | the station loop of a tick does exactly `Tick`: each due station in order, stopping at the first error; the stations remain distinct and keep `next == last + frequency` |
| Engine.Simulation.Report | classes/simulation.py:114-130 | one trajectory row `[iteration, t/1000, x, y]` and then the station loop |
| Engine.Simulation.NextPosition | classes/simulation.py:137-143 | the receiver's next state is `Advance`: the model's step with the position rounded to 9 decimals; the cooldown object's timer follows the model |
| Engine.Simulation.Iterate | classes/simulation.py:110-143 | one pass of the loop: after an error, or when the incremented time reaches the limit, the run is over and its result is the spec's result; otherwise the time is one more and below the iteration count, and the rest of the run is unchanged |
| Engine.Simulation.MainLoop | classes/simulation.py:108-143 | the loop produces exactly `Run`: the final station timestamps, both files' rows, and the error that ended it, if any |
| Engine.CloseBoth | classes/simulation.py:145-148 | after closing, each file holds its header and every row written, with nothing left in a buffer |
| Engine.Simulation.Start | classes/simulation.py:42-148 | `start` produces `Run` of its configuration: the stations hold the run's final timestamps, each file holds its header followed by the run's rows (on error too), and the outcome is the run's error, if any |
| Engine.Simulation.ConfiguredRunCompletes | classes/simulation.py:108-135 | with an accepted configuration and stations that all carry Tx and n and have no loss record or a complete one, the run never fails; the trajectory has one row per iteration, and every RSSI row is at or above −100 dBm |
| EngineSpec.IterationCount | classes/simulation.py:132-135 | a positive duration gives at least one iteration; the count N is the least integer with N ≥ duration in ms |
| EngineSpec.InitialReceiver | classes/simulation.py:72-77 | the start position is a fixed point of 9-digit rounding, within half a unit in the ninth decimal of the configured one; the heading is the configured angle in radians; the cooldown timer starts at 0 |
| EngineSpec.Advance | classes/simulation.py:138-143 | every position reused by the loop is a fixed point of 9-digit rounding; the base model never touches the timer |
| EngineSpec.DueExactly | classes/simulation.py:119 | a station is in the due list iff `next ≤ t`; the list is strictly increasing, so it is in list order with no repeats |
| EngineProperties.ProcessDueStamps | classes/simulation.py:119-127 | a station loop that ends without error stamps exactly the listed stations with t and leaves the others alone; rows are only appended |
| EngineProperties.TickStamps | classes/simulation.py:119-127 | after an error-free tick, a due station has `last = t` (whether its reading was dropped or not) and every other station is unchanged |
| EngineProperties.RunFromLasts | classes/simulation.py:110-135 | after an error-free run, each station's timestamp is given by its own schedule `LastAfter` |
| EngineProperties.LastAfterFromZero | classes/models/station.py:26-27 | a station created with timestamp 0 and period f ≥ 1 has, after n ≥ 1 ticks, last transmitted at the largest multiple of f below n |
| EngineProperties.DueAtMultiples | classes/simulation.py:119-124 | for the schedule `LastAfter` on its own: a station starting at 0 is due at tick t iff t is a positive multiple of f |
| EngineProperties.DueFromZero | classes/simulation.py:119-124 | at tick t of a run from timestamps 0, in the state its error-free ticks leave, a station is due iff t is a positive multiple of its period |
| EngineProperties.RssiRowsScheduled | classes/simulation.py:110-130 | in a run from timestamps 0, every RSSI row was written at a tick that is a positive multiple of the period of a station with that MAC, so there are no readings between a station's multiples |
| EngineProperties.RunSchedule | classes/simulation.py:110-135 | after an error-free run, every station that started at 0 last transmitted at the largest multiple of its period below the iteration count |
| EngineProperties.LogDistanceReliable | classes/simulators/rssi/logdistance.py:43-46 | the log-distance module never raises on stations that carry Tx and n and have a complete loss record |
| EngineProperties.ReliableRunSucceeds | classes/simulation.py:108-135 | if the RSSI module never raises, the run ends without error |
| EngineProperties.TrajectoryRows | classes/simulation.py:114-116 | row k of the trajectory is `[k+1, k/1000, x_k, y_k]`, with the receiver's position at tick k |
| EngineProperties.RunFromTrajectory | classes/simulation.py:110-135 | from any tick, the trajectory rows written are the rows of ticks 0..K−1, with K ≤ N; if no error occurs, K = N |
| EngineProperties.RunTrajectory | classes/simulation.py:110-135 | a run writes between 1 and N trajectory rows, those of ticks 0, 1, …; without an error it writes exactly N |
| EngineProperties.LogDistanceFloored | classes/simulators/rssi/logdistance.py:66-69 | the log-distance module never returns a reading below −100 |
| EngineProperties.RssiRowsOk | classes/simulation.py:126-130 | every RSSI row has 5 fields; its time is a whole number of milliseconds below N; its reading is at least −100 |
| Numerics.RoundHalfEven | classes/simulators/rssi/logdistance.py:69 | the result is within ½ of its argument, strictly within ½ except at ties, and even at ties |
| Numerics.RoundHalfEvenAtLeast | classes/simulators/rssi/logdistance.py:66-69 | rounding a value that is not below an integer k gives at least k |
| Numerics.RoundHalfEvenOfInt | classes/simulators/rssi/logdistance.py:69 | rounding an integer gives it back |
| Numerics.RoundPositionIdempotent | classes/simulation.py:140-143 | rounding to 9 decimals twice is the same as rounding once |
| Numerics.PositionScaleIsPow10 | classes/simulation.py:40 | the rounding scale is 10 to the 9 digits of `position_rounding` |
| Numerics.RoundPositionError | classes/simulation.py:140-143 | a rounded position is within half a unit in the ninth decimal of the exact one |
| FunctionModels.Sigmoid | classes/lib/functionmodels.py:35 | the sigmoid lies strictly between 0 and 1 |
| FunctionModels.Exponential | classes/lib/functionmodels.py:50 | the exponential has the sign of a, and is 0 when a is 0 |
| FunctionModels.Lineal | classes/lib/functionmodels.py:66 | with a = 0 the result is b; with a > 0 it exceeds b iff x > 0 |
| FunctionModels.SigmoidAtCentre | classes/lib/functionmodels.py:35 | at x = b the sigmoid is exactly ½ |
| FunctionModels.ExponentialFlat | classes/lib/functionmodels.py:50 | with b = 0 the exponential is the constant a |
| FunctionModels.SigmoidMonotone | classes/lib/functionmodels.py:35 | for a > 0 the sigmoid increases strictly with the distance |
| Stations.Station.constructor | classes/models/station.py:7-27 | every attribute is stored; `last = initial_timestamp` (default 0) and `next = initial_timestamp + frequency` |
| Stations.Station.SetLastTransmissionTimestamp | classes/models/station.py:78-87 | `last = t` and `next = t + frequency`; the invariant holds and the new state depends only on t |
| LegacyStations.Station.constructor | classes/station.py:6-22 | the same for the older class, which has no A1/A2 |
| LegacyStations.Station.SetLastTransmissionTimestamp | classes/station.py:59-68 | `last = t`, `next = t + frequency`, invariant kept |
| LogDistance.MissPercent | classes/simulators/rssi/logdistance.py:116-118 | the loss probability times 100, clamped into [0, 100] |
| LogDistance.MissDecision | classes/simulators/rssi/logdistance.py:120-127 | at 0 the packet is never lost and at 100 it always is; strictly between them it is lost iff the draw is ≤ the percentage, so a draw of 0 always loses when p > 0 |
| LogDistance.ShouldMissPackage | classes/simulators/rssi/logdistance.py:83-127 | no loss record, or one missing a name or its params, never loses; it raises exactly when a recognised name lacks `a` or `b`; for a complete record the decision is `MissDecision` of the clamped curve |
| LogDistance.CalculateRssi | classes/simulators/rssi/logdistance.py:42-69 | missing Tx or n raises, naming the MAC, whatever the draws; loss errors propagate; a lost packet or a level below −100 gives None; a kept packet at −100 or above gives the level rounded half to even, which is within ½ of it and at least −100 |
| LogDistance.ConfiguredNeverFails | classes/simulators/rssi/logdistance.py:43-46 | a station with Tx, n and a complete loss record never raises |
| LogDistance.LosingDrawsCount | classes/simulators/rssi/logdistance.py:126-127 | for 0 < p < 100, exactly ⌊p⌋ + 1 of the 101 draws lose the packet; none at 0 and all at 100 |
| LogDistance.NoiselessIsDeterministic | classes/simulators/rssi/logdistance.py:62-64 | with no noise the reading does not depend on the normal draw |
| LogDistance.LostPacketIgnoresNoise | classes/simulators/rssi/logdistance.py:52-53 | a lost packet gives None, whatever the normal draw |
| LogDistance.ReadingAtStation | classes/simulators/rssi/logdistance.py:56-59 | at distance 0 with no noise or loss model, the reading is exactly Tx |
| LogDistance.CertainLoss | classes/simulators/rssi/logdistance.py:106-124 | a `lineal` curve with a = 0 and b ≥ 1 loses every packet |
| LogDistance.LinearSpellingNeverDrops | classes/simulators/rssi/logdistance.py:94-114 | the name "linear" is not recognised, so it never loses a packet |
| DanisCemgil.Move | classes/simulators/trajectory/daniscemgil2017.py:66-75 | the new angle is `last_angle + delta`; a zero step length leaves the position unchanged |
| DanisCemgil.MoveCoversStepLength | classes/simulators/trajectory/daniscemgil2017.py:69-75 | when (cos, sin) is a unit vector, the receiver moves exactly `speed·ms/1000` metres |
| DanisCemgil.DanisCemgil2017.CalculatePosition | classes/simulators/trajectory/daniscemgil2017.py:54-78 | out of bounds the angle turns by π/8; inside the box, edges included, it turns by the Normal(0, s) draw |
| DanisCemgil.OutOfBoundsIgnoresDraw | classes/simulators/trajectory/daniscemgil2017.py:60-61 | out of bounds the result does not depend on the draw |
| DanisCemgil.StandingStill | classes/simulators/trajectory/daniscemgil2017.py:69-75 | with speed 0 or 0 ms the position is unchanged |
| DanisCemgilCustom.NextTimer | classes/simulators/trajectory/daniscemgil2017custom.py:43-50 | the timer only moves forward, to the current time, and never past it; after an in-bounds call, either the heading changed now or the time since the last change is within `keep_angle_ms` |
| DanisCemgilCustom.Step | classes/simulators/trajectory/daniscemgil2017custom.py:37-65 | out of bounds: +π/8 and timer := t; in bounds with elapsed > keep: + the draw and timer := t; otherwise the angle and timer are unchanged |
| DanisCemgilCustom.DanisCemgil2017Custom.constructor | classes/simulators/trajectory/daniscemgil2017custom.py:26-34 | the parameters are stored (defaults 300 ms and 0.07); the timer starts at 0 |
| DanisCemgilCustom.DanisCemgil2017Custom.CalculatePosition | classes/simulators/trajectory/daniscemgil2017custom.py:37-65 | the returned pose and the updated timer field are `Step` of the old timer |
| DanisCemgilCustom.TimerNeverAhead | classes/simulators/trajectory/daniscemgil2017custom.py:45-50 | with non-decreasing call times and a start not ahead, the timer never exceeds the latest call time |
| DanisCemgilCustom.ChangesTimer | classes/simulators/trajectory/daniscemgil2017custom.py:42-50 | the timer is the time of the last heading change; a first re-sample comes more than keep after the start; held calls are not changes |
| DanisCemgilCustom.ResamplesSpacedOut | classes/simulators/trajectory/daniscemgil2017custom.py:47-50 | each re-sample comes more than `keep_angle_ms` after the previous heading change |
| Configuration.Config.constructor | classes/config.py:18-45 | each absent key takes its default (60 s, margin 0, position (0, 0), 0.5 m/s, the drawn angle, empty module names); module parameters are `parameters[name]`, or empty |
| Configuration.Config.Validate | classes/config.py:47-85 | a rejection names a rule the configuration breaks |
| Configuration.Config.ValidateReportsFirst | classes/config.py:47-85 | accepted iff no rule is broken; no rule earlier in the checking order than the reported one is broken |
| Configuration.AcceptedScenario | classes/config.py:47-85 | an accepted configuration has positive duration, room and speed, margin ≥ 0, a start inside `[margin, dim − margin]` (so that box is not empty), an angle in [0, 360) and both module names |
| Configuration.EmptyConfigRejected | classes/config.py:29-54 | the configuration extracted from a dictionary with no keys is rejected for lack of room dimensions |
| Configuration.MinimalConfigAccepted | classes/config.py:28-85 | room dimensions and the two module names are enough: the defaults are accepted |
| CsvWriter.BufferedCsvFileWriter.constructor | classes/lib/bufferedcsvfilewriter.py:32-44 | an empty buffer; defaults of 1000 rows and enabled; the file keeps what it held |
| CsvWriter.BufferedCsvFileWriter.Write | classes/lib/bufferedcsvfilewriter.py:50-61 | disabled: nothing changes; enabled: the file followed by the buffer grows by exactly the row, and a full buffer is flushed, so the buffer stays below its size |
| CsvWriter.BufferedCsvFileWriter.Flush | classes/lib/bufferedcsvfilewriter.py:63-72 | the buffer is appended to the file in order and emptied; an empty buffer leaves the file alone |
| CsvWriter.BufferedCsvFileWriter.Close | classes/lib/bufferedcsvfilewriter.py:74-79 | the file then holds every accepted row and the buffer is empty; a second close changes nothing |
| LegacyCsvWriter.BufferedCsvFileWriter.constructor | classes/bufferedcsvfilewriter.py:18-28 | an empty buffer with a default size of 1000 |
| LegacyCsvWriter.BufferedCsvFileWriter.Write | classes/bufferedcsvfilewriter.py:30-39 | every write is recorded: the file followed by the buffer grows by exactly the row; flush at the size |
| LegacyCsvWriter.BufferedCsvFileWriter.Flush | classes/bufferedcsvfilewriter.py:41-48 | the buffer, even an empty one, is appended and emptied, and the file exists afterwards |
| LegacyCsvWriter.BufferedCsvFileWriter.Close | classes/bufferedcsvfilewriter.py:50-55 | flushes only a non-empty buffer; afterwards the buffer is empty and the file holds every row |

## Left out

- The trajectory and RSSI factories (`classes/simulators/*/factory.py`) are not modelled. They only dispatch on a name, and the code as written cannot build the models used here:
  - the trajectory factory knows only `dummy`;
  - it takes one argument where `start` passes two.

  The engine therefore takes the trajectory model as a closed datatype (`TrajectoryModel`: the base model or the cooldown variant with its parameters). The RSSI module is a function value, which is the log-distance model in `Start`. Errors raised while the modules are created happen before the `try` block; the model starts at the `try`.
- The dummy simulators and `classes/modules/position/dummy.py` are not modelled. They draw random values, and the position dummy is dead code.
- main.py is not part of this model: the command line and the JSON station files. Stations are supplied already built.
- The configuration file is not loaded (`_load_config_file`): JSON and file-system I/O. The dictionary is an input with each key present or absent. Values are assumed to have the right types, and the duration is a real.
- The default initial angle, `np.random.uniform(0, 360)`, is a parameter in [0, 360).
- Output file names are parameters: the date-time prefix reads the clock. Plotting (`_plot_trajectory`) is left out.
- File contents are sequences of rows, and CSV formatting is not modelled. The files are assumed to be distinct, and nothing else writes them.
- Floating point is exact real arithmetic. `sqrt`, `log10`, `exp`, `cos` and `sin` are uninterpreted, so numeric accuracy is not claimed.
- The RSSI module's interface is narrowed to (station, x, y, draws). `calculate_rssi` also receives `current_time`, `milliseconds_per_iteration` and `speed` (classes/simulation.py:121-124), but the log-distance model ignores them.
- FunctionModels.Sigmoid: the bound 0 < r < 1 holds only over exact reals. In floating point the sigmoid rounds to exactly 1.0 once a(x − b) is above about 37. The loss percentage is then 100, and the packet is always lost, even with a draw of 100.
- A station with a period of 0 or less is allowed, as in the code. The schedule lemmas assume a positive period.
- The station list must hold distinct objects (`Ready`): the same object listed twice is an aliasing case that is not modelled.
- Stations carry `tx`, `n`, `noiseStdDev` and `missingPackagesProbability`, which the RSSI model reads but neither Python station class declares. `tx`, `n` and the loss record are optional. The noise defaults to 0, which means no noise.
- The loss model's spelling follows the code, `lineal`. The name "linear" is an unknown model and never drops a packet.
- An exception from the RSSI module ends the run, and is reported as the `Fail` outcome of `Start` after both files are closed. Other exceptions (from the trajectory model or a writer) are not modelled.
