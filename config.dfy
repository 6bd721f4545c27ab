/** The simulation configuration (classes/config.py): the parameters read
    from the configuration dictionary, with their defaults, and the rules
    a configuration must satisfy before a simulation can use it. */
module Configuration {
  import opened Wrappers

  /** A dictionary of numbers, such as `{"x": 10, "y": 8}`. */
  type NumberMap = map<string, real>

  /** The `simulators` section; each key may be absent. */
  datatype SimulatorsSection = SimulatorsSection(
    trajectory: Option<string>,
    trajectoryParameters: Option<map<string, NumberMap>>,
    rssi: Option<string>,
    rssiParameters: Option<map<string, NumberMap>>)

  /** The loaded configuration dictionary; each key may be absent. */
  datatype RawConfig = RawConfig(
    simulationDurationSeconds: Option<real>,
    roomDimMeters: Option<NumberMap>,
    marginMeters: Option<real>,
    initialPosition: Option<NumberMap>,
    speedMetersSecond: Option<real>,
    initialAngleDegrees: Option<real>,
    simulators: Option<SimulatorsSection>)

  /** The rules of `_validate_config`, in the order they are checked. */
  datatype ConfigError =
    | DurationNotPositive
    | RoomDimensionsMissing
    | RoomDimensionsMissingIndex
    | RoomDimensionsNotPositive
    | NegativeMargin
    | InitialPositionMissingIndex
    | InitialPositionNegative
    | SpeedNotPositive
    | AngleOutOfRange
    | TrajectoryModuleMissing
    | RssiModuleMissing
    | InitialXOutOfBounds
    | InitialYOutOfBounds

  /** The position of a rule in the checking order. */
  function Rank(e: ConfigError): nat {
    match e
    case DurationNotPositive => 0
    case RoomDimensionsMissing => 1
    case RoomDimensionsMissingIndex => 2
    case RoomDimensionsNotPositive => 3
    case NegativeMargin => 4
    case InitialPositionMissingIndex => 5
    case InitialPositionNegative => 6
    case SpeedNotPositive => 7
    case AngleOutOfRange => 8
    case TrajectoryModuleMissing => 9
    case RssiModuleMissing => 10
    case InitialXOutOfBounds => 11
    case InitialYOutOfBounds => 12
  }

  /** `dict.get(key, default)` on an optional entry. */
  function OrElse<T>(o: Option<T>, default: T): T {
    if o.Some? then o.value else default
  }

  function GetOr(m: NumberMap, key: string, default: real): real {
    if key in m then m[key] else default
  }

  const DefaultDurationSeconds: real := 60.0
  const DefaultMarginMeters: real := 0.0
  const DefaultInitialPosition: NumberMap := map["x" := 0.0, "y" := 0.0]
  const DefaultSpeedMetersSecond: real := 0.5

  class Config {
    const simulationDurationSeconds: real
    const roomDimMeters: Option<NumberMap>
    const marginMeters: real
    const initialPosition: NumberMap
    const speedMetersSecond: real
    const initialAngleDegrees: real
    const trajectorySimulatorModule: string
    const trajectorySimulatorParameters: map<string, NumberMap>
    const trajectorySimulatorModuleParameters: NumberMap
    const rssiSimulatorModule: string
    const rssiSimulatorParameters: map<string, NumberMap>
    const rssiSimulatorModuleParameters: NumberMap

    /** The attributes `_extract_config_parameters` gives for `raw`, the
        default initial angle being `angleDraw`. */
    predicate Extracted(raw: RawConfig, angleDraw: real) {
      var sims := OrElse(raw.simulators, SimulatorsSection(None, None, None, None));
      && simulationDurationSeconds == OrElse(raw.simulationDurationSeconds, DefaultDurationSeconds)
      && roomDimMeters == raw.roomDimMeters
      && marginMeters == OrElse(raw.marginMeters, DefaultMarginMeters)
      && initialPosition == OrElse(raw.initialPosition, DefaultInitialPosition)
      && speedMetersSecond == OrElse(raw.speedMetersSecond, DefaultSpeedMetersSecond)
      && initialAngleDegrees == OrElse(raw.initialAngleDegrees, angleDraw)
      && trajectorySimulatorModule == OrElse(sims.trajectory, "")
      && rssiSimulatorModule == OrElse(sims.rssi, "")
    }

    /** `_extract_config_parameters`: every attribute takes the configured
        value or its default. The default initial angle is a uniform draw in
        [0, 360), given as `angleDraw`; the module parameters are those
        stored under the selected module's name, or none. */
    constructor (raw: RawConfig, angleDraw: real)
      requires 0.0 <= angleDraw < 360.0
      ensures Extracted(raw, angleDraw)
      ensures simulationDurationSeconds == OrElse(raw.simulationDurationSeconds, DefaultDurationSeconds)
      ensures roomDimMeters == raw.roomDimMeters
      ensures marginMeters == OrElse(raw.marginMeters, DefaultMarginMeters)
      ensures initialPosition == OrElse(raw.initialPosition, DefaultInitialPosition)
      ensures speedMetersSecond == OrElse(raw.speedMetersSecond, DefaultSpeedMetersSecond)
      ensures initialAngleDegrees == OrElse(raw.initialAngleDegrees, angleDraw)
      ensures var sims := OrElse(raw.simulators, SimulatorsSection(None, None, None, None));
        && trajectorySimulatorModule == OrElse(sims.trajectory, "")
        && trajectorySimulatorParameters == OrElse(sims.trajectoryParameters, map[])
        && rssiSimulatorModule == OrElse(sims.rssi, "")
        && rssiSimulatorParameters == OrElse(sims.rssiParameters, map[])
      ensures trajectorySimulatorModuleParameters
           == (if trajectorySimulatorModule in trajectorySimulatorParameters
               then trajectorySimulatorParameters[trajectorySimulatorModule] else map[])
      ensures rssiSimulatorModuleParameters
           == (if rssiSimulatorModule in rssiSimulatorParameters
               then rssiSimulatorParameters[rssiSimulatorModule] else map[])
    {
      simulationDurationSeconds := OrElse(raw.simulationDurationSeconds, DefaultDurationSeconds);
      roomDimMeters := raw.roomDimMeters;
      marginMeters := OrElse(raw.marginMeters, DefaultMarginMeters);
      initialPosition := OrElse(raw.initialPosition, DefaultInitialPosition);
      speedMetersSecond := OrElse(raw.speedMetersSecond, DefaultSpeedMetersSecond);
      initialAngleDegrees := OrElse(raw.initialAngleDegrees, angleDraw);

      var simulators := OrElse(raw.simulators, SimulatorsSection(None, None, None, None));
      var trajectoryModule := OrElse(simulators.trajectory, "");
      var trajectoryParameters := OrElse(simulators.trajectoryParameters, map[]);
      trajectorySimulatorModule := trajectoryModule;
      trajectorySimulatorParameters := trajectoryParameters;
      trajectorySimulatorModuleParameters :=
        if trajectoryModule in trajectoryParameters then trajectoryParameters[trajectoryModule] else map[];

      var rssiModule := OrElse(simulators.rssi, "");
      var rssiParameters := OrElse(simulators.rssiParameters, map[]);
      rssiSimulatorModule := rssiModule;
      rssiSimulatorParameters := rssiParameters;
      rssiSimulatorModuleParameters :=
        if rssiModule in rssiParameters then rssiParameters[rssiModule] else map[];
    }

    /** Whether rule `e` is broken, each rule judged on its own. A rule that
        reads a dictionary entry counts as broken only when the entry is
        there; a missing entry is the business of an earlier rule. */
    predicate Violated(e: ConfigError) {
      match e
      case DurationNotPositive => simulationDurationSeconds <= 0.0
      case RoomDimensionsMissing => roomDimMeters.None?
      case RoomDimensionsMissingIndex =>
        roomDimMeters.Some? && ("x" !in roomDimMeters.value || "y" !in roomDimMeters.value)
      case RoomDimensionsNotPositive =>
        roomDimMeters.Some?
        && (GetOr(roomDimMeters.value, "x", 0.0) <= 0.0 || GetOr(roomDimMeters.value, "y", 0.0) <= 0.0)
      case NegativeMargin => marginMeters < 0.0
      case InitialPositionMissingIndex => "x" !in initialPosition || "y" !in initialPosition
      case InitialPositionNegative =>
        GetOr(initialPosition, "x", 0.0) < 0.0 || GetOr(initialPosition, "y", 0.0) < 0.0
      case SpeedNotPositive => speedMetersSecond <= 0.0
      case AngleOutOfRange => initialAngleDegrees < 0.0 || initialAngleDegrees >= 360.0
      case TrajectoryModuleMissing => trajectorySimulatorModule == ""
      case RssiModuleMissing => rssiSimulatorModule == ""
      case InitialXOutOfBounds =>
        roomDimMeters.Some? && "x" in roomDimMeters.value && "x" in initialPosition
        && (initialPosition["x"] < marginMeters
            || initialPosition["x"] > roomDimMeters.value["x"] - marginMeters)
      case InitialYOutOfBounds =>
        roomDimMeters.Some? && "y" in roomDimMeters.value && "y" in initialPosition
        && (initialPosition["y"] < marginMeters
            || initialPosition["y"] > roomDimMeters.value["y"] - marginMeters)
    }

    /** `_validate_config`: the rules in checking order; a rejection names a
        rule the configuration breaks. */
    function Validate(): (o: Outcome<ConfigError>)
      ensures o.Fail? ==> Violated(o.error)
    {
      if simulationDurationSeconds <= 0.0 then Fail(DurationNotPositive)
      else if roomDimMeters.None? then Fail(RoomDimensionsMissing)
      else if "x" !in roomDimMeters.value || "y" !in roomDimMeters.value then Fail(RoomDimensionsMissingIndex)
      else if GetOr(roomDimMeters.value, "x", 0.0) <= 0.0 || GetOr(roomDimMeters.value, "y", 0.0) <= 0.0 then
        Fail(RoomDimensionsNotPositive)
      else if marginMeters < 0.0 then Fail(NegativeMargin)
      else if "x" !in initialPosition || "y" !in initialPosition then Fail(InitialPositionMissingIndex)
      else if GetOr(initialPosition, "x", 0.0) < 0.0 || GetOr(initialPosition, "y", 0.0) < 0.0 then
        Fail(InitialPositionNegative)
      else if speedMetersSecond <= 0.0 then Fail(SpeedNotPositive)
      else if initialAngleDegrees < 0.0 || initialAngleDegrees >= 360.0 then Fail(AngleOutOfRange)
      else if trajectorySimulatorModule == "" then Fail(TrajectoryModuleMissing)
      else if rssiSimulatorModule == "" then Fail(RssiModuleMissing)
      else if initialPosition["x"] < marginMeters
              || initialPosition["x"] > roomDimMeters.value["x"] - marginMeters then Fail(InitialXOutOfBounds)
      else if initialPosition["y"] < marginMeters
              || initialPosition["y"] > roomDimMeters.value["y"] - marginMeters then Fail(InitialYOutOfBounds)
      else Pass
    }

    /** A configuration is accepted exactly when it breaks no rule, and a
        rejected one is reported under the first rule it breaks, in checking
        order. */
    lemma ValidateReportsFirst()
      ensures Validate().Pass? <==> forall e :: !Violated(e)
      ensures Validate().Fail? ==> forall e :: Violated(e) ==> Rank(Validate().error) <= Rank(e)
    {
      forall e | Violated(e)
        ensures Validate().Fail? && Rank(Validate().error) <= Rank(e)
      {
        match e
        case DurationNotPositive =>
        case RoomDimensionsMissing =>
        case RoomDimensionsMissingIndex =>
        case RoomDimensionsNotPositive =>
        case NegativeMargin =>
        case InitialPositionMissingIndex =>
        case InitialPositionNegative =>
        case SpeedNotPositive =>
        case AngleOutOfRange =>
        case TrajectoryModuleMissing =>
        case RssiModuleMissing =>
        case InitialXOutOfBounds =>
        case InitialYOutOfBounds =>
      }
    }

    /** The configuration passed validation. */
    predicate Accepted() {
      Validate().Pass?
    }

    // The quantities the simulation derives from an accepted configuration.

    function DimX(): real
      requires Accepted()
    {
      roomDimMeters.value["x"]
    }

    function DimY(): real
      requires Accepted()
    {
      roomDimMeters.value["y"]
    }

    function InitialX(): real
      requires Accepted()
    {
      initialPosition["x"]
    }

    function InitialY(): real
      requires Accepted()
    {
      initialPosition["y"]
    }
  }

  /** An accepted configuration describes a usable scenario: positive
      duration, room and speed, a margin box [margin, dim - margin] that is
      not empty and contains the initial position, an angle in [0, 360) and
      both modules named. */
  lemma AcceptedScenario(c: Config)
    requires c.Accepted()
    ensures c.simulationDurationSeconds > 0.0 && c.speedMetersSecond > 0.0
    ensures c.DimX() > 0.0 && c.DimY() > 0.0 && c.marginMeters >= 0.0
    ensures c.marginMeters <= c.InitialX() <= c.DimX() - c.marginMeters
    ensures c.marginMeters <= c.InitialY() <= c.DimY() - c.marginMeters
    ensures 2.0 * c.marginMeters <= c.DimX() && 2.0 * c.marginMeters <= c.DimY()
    ensures 0.0 <= c.initialAngleDegrees < 360.0
    ensures c.trajectorySimulatorModule != "" && c.rssiSimulatorModule != ""
  {
    c.ValidateReportsFirst();
    assert !c.Violated(InitialXOutOfBounds) && !c.Violated(InitialYOutOfBounds);
    assert !c.Violated(RoomDimensionsNotPositive) && !c.Violated(AngleOutOfRange);
  }

  /** A configuration file with no keys at all is rejected for want of room
      dimensions (the default duration is positive). */
  lemma EmptyConfigRejected(angleDraw: real, c: Config)
    requires c.Extracted(RawConfig(None, None, None, None, None, None, None), angleDraw)
    ensures c.Validate() == Fail(RoomDimensionsMissing)
  {
  }

  /** Room dimensions and the two module names are all a configuration
      needs: with every other key absent the defaults (60 s, no margin,
      start at the origin, 0.5 m/s, a drawn angle) are accepted. */
  lemma MinimalConfigAccepted(raw: RawConfig, angleDraw: real, c: Config)
    requires raw.simulationDurationSeconds == None && raw.marginMeters == None
    requires raw.initialPosition == None && raw.speedMetersSecond == None && raw.initialAngleDegrees == None
    requires raw.roomDimMeters.Some? && "x" in raw.roomDimMeters.value && "y" in raw.roomDimMeters.value
    requires raw.roomDimMeters.value["x"] > 0.0 && raw.roomDimMeters.value["y"] > 0.0
    requires raw.simulators.Some? && raw.simulators.value.trajectory.Some? && raw.simulators.value.rssi.Some?
    requires raw.simulators.value.trajectory.value != "" && raw.simulators.value.rssi.value != ""
    requires 0.0 <= angleDraw < 360.0
    requires c.Extracted(raw, angleDraw)
    ensures c.Accepted()
  {
    assert c.initialPosition["x"] == 0.0 && c.initialPosition["y"] == 0.0;
  }
}
