/** The log-distance path-loss RSSI model with its packet-loss sub-model
    (`LogDistancePathLossModel.calculate_rssi` and `should_miss_package`).
    The two random draws a call may consume are passed in. */
module LogDistance {
  import opened Wrappers
  import opened Numerics
  import FunctionModels
  import opened Stations

  /** The `ValueError`s the model raises. */
  datatype RssiError =
    | MissingTxOrN(mac: string)
    | MissingFunctionParams(functionModel: string)

  /** A value `random.randint(0, 100)` can return. */
  type Percent = d: int | 0 <= d <= 100

  /** The draws of one call: the integer for the drop decision, and a
      standard-normal sample z, so that `np.random.normal(0, sd)` is sd * z. */
  datatype RssiDraws = RssiDraws(randint: Percent, gauss: real)

  /** Readings below this level are undetectable. */
  const MinimumRssi: int := -100

  function Distance(m: MathLib, station: Station, cx: real, cy: real): real {
    m.sqrt((station.x - cx) * (station.x - cx) + (station.y - cy) * (station.y - cy))
  }

  /** The function-model names the packet-loss sub-model knows. */
  predicate Recognised(name: string) {
    name == "sigmoid" || name == "exponential" || name == "lineal"
  }

  /** The station names a recognised function model and gives both of its
      parameters: the case where a probability is computed. */
  predicate HasLossModel(station: Station) {
    && station.missingPackagesProbability.Some?
    && var mpp := station.missingPackagesProbability.value;
    && mpp.functionModel.Some? && mpp.params.Some?
    && Recognised(mpp.functionModel.value)
    && "a" in mpp.params.value && "b" in mpp.params.value
  }

  /** The station names a recognised function model but leaves out `a` or
      `b`: the case that raises. */
  predicate LossModelIncomplete(station: Station) {
    && station.missingPackagesProbability.Some?
    && var mpp := station.missingPackagesProbability.value;
    && mpp.functionModel.Some? && mpp.params.Some?
    && Recognised(mpp.functionModel.value)
    && ("a" !in mpp.params.value || "b" !in mpp.params.value)
  }

  /** The raw value of the station's function model at this distance. */
  function LossProbability(m: MathLib, station: Station, distance: real): real
    requires HasLossModel(station)
  {
    var mpp := station.missingPackagesProbability.value;
    var name, a, b := mpp.functionModel.value, mpp.params.value["a"], mpp.params.value["b"];
    if name == "sigmoid" then FunctionModels.Sigmoid(m, distance, a, b)
    else if name == "exponential" then FunctionModels.Exponential(m, distance, a, b)
    else FunctionModels.Lineal(distance, a, b)
  }

  /** The probability as a percentage, clamped into [0, 100]. */
  function MissPercent(p: real): (pct: real)
    ensures 0.0 <= pct <= 100.0
    ensures 0.0 <= p * 100.0 <= 100.0 ==> pct == p * 100.0
    ensures p <= 0.0 ==> pct == 0.0
    ensures p >= 1.0 ==> pct == 100.0
  {
    var scaled := p * 100.0;
    var capped := if scaled < 100.0 then scaled else 100.0;
    if capped > 0.0 then capped else 0.0
  }

  /** The drop decision for a percentage in [0, 100] and a draw in [0, 100].
      The draw decides only strictly between the two bounds; there the
      packet is lost iff the draw does not exceed the percentage, so a draw of
      0 always loses it and a draw of 100 never does. */
  function MissDecision(pct: real, draw: Percent): (miss: bool)
    requires 0.0 <= pct <= 100.0
    ensures pct == 0.0 ==> !miss
    ensures pct == 100.0 ==> miss
    ensures pct > 0.0 && draw == 0 ==> miss
    ensures pct < 100.0 && draw == 100 ==> !miss
    ensures draw as real <= pct ==> (miss <==> pct > 0.0)
    ensures 0.0 < pct < 100.0 ==> (miss <==> draw as real <= pct)
  {
    if pct == 0.0 then false
    else if pct == 100.0 then true
    else draw as real <= pct
  }

  /** `should_miss_package`. */
  function ShouldMissPackage(m: MathLib, station: Station, distance: real, draw: Percent): (r: Result<bool, RssiError>)
    ensures station.missingPackagesProbability.None? ==> r == Success(false)
    ensures r.Failure? <==> LossModelIncomplete(station)
    ensures r.Failure? ==>
      r.error == MissingFunctionParams(station.missingPackagesProbability.value.functionModel.value)
    ensures !HasLossModel(station) && !LossModelIncomplete(station) ==> r == Success(false)
    ensures HasLossModel(station) ==>
      r == Success(MissDecision(MissPercent(LossProbability(m, station, distance)), draw))
  {
    if station.missingPackagesProbability.None? then Success(false)
    else
      var mpp := station.missingPackagesProbability.value;
      if mpp.functionModel.None? || mpp.params.None? then Success(false)
      else
        var name, params := mpp.functionModel.value, mpp.params.value;
        if !Recognised(name) then Success(false)
        else if "a" !in params || "b" !in params then Failure(MissingFunctionParams(name))
        else
          var pct := MissPercent(LossProbability(m, station, distance));
          Success(MissDecision(pct, draw))
  }

  /** The reading before noise: Tx at distance 0, Tx - 10 n log10(d) otherwise. */
  function BaseReading(m: MathLib, tx: real, n: real, distance: real): real {
    if distance != 0.0 then tx - 10.0 * n * m.log10(distance) else tx
  }

  /** The reading with the noise added, which only happens when the standard
      deviation is positive. */
  function NoisyReading(m: MathLib, station: Station, distance: real, gauss: real): real
    requires station.tx.Some? && station.n.Some?
  {
    var rssi := BaseReading(m, station.tx.value, station.n.value, distance);
    if station.noiseStdDev > 0.0 then rssi + station.noiseStdDev * gauss else rssi
  }

  /** `calculate_rssi`: `Failure` for the raised errors, `Success(None)` for a
      lost packet or an undetectable signal, `Success(Some(v))` for a reading. */
  function CalculateRssi(m: MathLib, station: Station, cx: real, cy: real, draws: RssiDraws): (r: Result<Option<int>, RssiError>)
    // A missing Tx or n is fatal, whatever the position and the draws.
    ensures station.tx.None? || station.n.None? ==> r == Failure(MissingTxOrN(station.mac))
    ensures station.tx.Some? && station.n.Some? ==>
      var d := Distance(m, station, cx, cy);
      var miss := ShouldMissPackage(m, station, d, draws.randint);
      var rssi := NoisyReading(m, station, d, draws.gauss);
      // Errors of the loss model propagate; a lost packet or a reading below
      // -100 gives no reading; otherwise the reading is the rounded value.
      && (miss.Failure? ==> r == Failure(miss.error))
      && (miss == Success(true) ==> r == Success(None))
      && (miss == Success(false) && rssi < MinimumRssi as real ==> r == Success(None))
      && (miss == Success(false) && rssi >= MinimumRssi as real ==> r == Success(Some(RoundHalfEven(rssi))))
      && (r.Success? && r.value.Some? ==>
            miss == Success(false) && rssi >= MinimumRssi as real
            && rssi - 0.5 <= r.value.value as real <= rssi + 0.5)
    // Every reading returned is an integer no lower than -100.
    ensures r.Success? && r.value.Some? ==> r.value.value >= MinimumRssi
  {
    if station.tx.None? || station.n.None? then Failure(MissingTxOrN(station.mac))
    else
      var distance := Distance(m, station, cx, cy);
      var miss :- ShouldMissPackage(m, station, distance, draws.randint);
      if miss then Success(None)
      else
        var rssi := NoisyReading(m, station, distance, draws.gauss);
        if rssi < MinimumRssi as real then Success(None)
        else
          RoundHalfEvenAtLeast(rssi, MinimumRssi);
          Success(Some(RoundHalfEven(rssi)))
  }

  /** The station carries everything the model needs, so it never raises. */
  predicate Configured(station: Station) {
    station.tx.Some? && station.n.Some? && !LossModelIncomplete(station)
  }

  lemma ConfiguredNeverFails(m: MathLib, station: Station, cx: real, cy: real, draws: RssiDraws)
    requires Configured(station)
    ensures CalculateRssi(m, station, cx, cy, draws).Success?
  {
  }

  /** Draws that lose the packet: for a percentage strictly between 0 and 100
      there are floor(pct) + 1 of the 101 values of `randint(0, 100)`, so the
      packet is lost with probability (floor(pct) + 1) / 101 rather than
      pct / 100. */
  function LosingDraws(pct: real): set<int>
    requires 0.0 <= pct <= 100.0
  {
    set d: int | 0 <= d <= 100 && MissDecision(pct, d)
  }

  predicate Below(d: int, k: int) {
    0 <= d < k
  }

  /** The draws 0, 1, ..., k - 1. */
  function DrawsBelow(k: nat): set<int> {
    set d: int | 0 <= d < k && Below(d, k)
  }

  lemma {:induction false} DrawsBelowSize(k: nat)
    ensures |DrawsBelow(k)| == k
  {
    if k > 0 {
      DrawsBelowSize(k - 1);
      assert DrawsBelow(k) == DrawsBelow(k - 1) + {k - 1};
    }
  }

  lemma LosingDrawsCount(pct: real)
    requires 0.0 <= pct <= 100.0
    ensures pct == 0.0 ==> |LosingDraws(pct)| == 0
    ensures pct == 100.0 ==> |LosingDraws(pct)| == 101
    ensures 0.0 < pct < 100.0 ==> |LosingDraws(pct)| == pct.Floor + 1
  {
    if pct == 0.0 {
      assert LosingDraws(pct) == {};
    } else if pct == 100.0 {
      assert LosingDraws(pct) == DrawsBelow(101);
      DrawsBelowSize(101);
    } else {
      var k := pct.Floor + 1;
      assert 1 <= k <= 100;
      forall d: int | 0 <= d <= 100
        ensures MissDecision(pct, d) <==> d < k
      {
        assert d as real <= pct <==> d <= pct.Floor;
      }
      assert LosingDraws(pct) == DrawsBelow(k);
      DrawsBelowSize(k);
    }
  }

  /** With no noise the reading is a function of the geometry and the station
      alone: the normal draw is never used. */
  lemma NoiselessIsDeterministic(m: MathLib, station: Station, cx: real, cy: real, d1: RssiDraws, d2: RssiDraws)
    requires station.noiseStdDev <= 0.0 && d1.randint == d2.randint
    ensures CalculateRssi(m, station, cx, cy, d1) == CalculateRssi(m, station, cx, cy, d2)
  {
  }

  /** A lost packet draws no noise: the result does not depend on it. */
  lemma LostPacketIgnoresNoise(m: MathLib, station: Station, cx: real, cy: real, d1: RssiDraws, d2: RssiDraws)
    requires station.tx.Some? && station.n.Some?
    requires d1.randint == d2.randint
    requires ShouldMissPackage(m, station, Distance(m, station, cx, cy), d1.randint) == Success(true)
    ensures CalculateRssi(m, station, cx, cy, d1) == CalculateRssi(m, station, cx, cy, d2) == Success(None)
  {
  }

  /** At the station itself, with no noise and no loss model, the reading is
      exactly Tx (when Tx is an integer no lower than -100). */
  lemma ReadingAtStation(m: MathLib, station: Station, tx: int, draws: RssiDraws)
    requires m.sqrt(0.0) == 0.0
    requires station.tx == Some(tx as real) && station.n.Some?
    requires station.noiseStdDev <= 0.0 && station.missingPackagesProbability.None?
    requires tx >= MinimumRssi
    ensures CalculateRssi(m, station, station.x, station.y, draws) == Success(Some(tx))
  {
    assert Distance(m, station, station.x, station.y) == 0.0;
    RoundHalfEvenOfInt(tx);
  }

  /** A linear loss model a = 0, b >= 1 is a certain loss: every packet from
      the station is dropped, whatever the distance and the draw. */
  lemma CertainLoss(m: MathLib, station: Station, b: real, cx: real, cy: real, draws: RssiDraws)
    requires station.tx.Some? && station.n.Some? && b >= 1.0
    requires station.missingPackagesProbability ==
      Some(MissingPackagesProbability(Some("lineal"), Some(map["a" := 0.0, "b" := b])))
    ensures CalculateRssi(m, station, cx, cy, draws) == Success(None)
  {
    var d := Distance(m, station, cx, cy);
    assert HasLossModel(station);
    assert LossProbability(m, station, d) == b;
  }

  /** Only the spelling "lineal" selects the linear model: "linear" is an
      unknown name, and an unknown name never drops a packet. */
  lemma LinearSpellingNeverDrops(m: MathLib, station: Station, params: map<string, real>, distance: real, draw: Percent)
    requires station.missingPackagesProbability ==
      Some(MissingPackagesProbability(Some("linear"), Some(params)))
    ensures ShouldMissPackage(m, station, distance, draw) == Success(false)
  {
  }
}
