/** An access-point station (classes/models/station.py): identity, position,
    transmission period, optional model parameters, and the scheduling state
    that the engine updates once per transmission. */
module Stations {
  import opened Wrappers

  /** A station's `missing_packages_probability` record: the name of a
      function model and its parameter dictionary, each of which may be
      absent. */
  datatype MissingPackagesProbability =
    MissingPackagesProbability(functionModel: Option<string>, params: Option<map<string, real>>)

  class Station {
    // Read-only attributes: they have no setter and never change.
    const mac: string
    const x: real
    const y: real
    const frequency: int
    const a1: Option<real>
    const a2: Option<real>
    // Log-distance parameters read by the RSSI model; none of them is
    // declared by the station class itself, so each is optional here.
    const tx: Option<real>
    const n: Option<real>
    const noiseStdDev: real
    const missingPackagesProbability: Option<MissingPackagesProbability>

    // Scheduling state.
    var lastTransmissionTimestamp: int
    var nextTransmissionTimestamp: int

    /** The scheduling invariant: the next transmission is one period after
        the last one. */
    ghost predicate Valid()
      reads this
    {
      nextTransmissionTimestamp == lastTransmissionTimestamp + frequency
    }

    constructor (mac: string, x: real, y: real, frequency: int,
                 a1: Option<real> := None, a2: Option<real> := None,
                 initialTimestamp: int := 0,
                 tx: Option<real> := None, n: Option<real> := None,
                 noiseStdDev: real := 0.0,
                 missingPackagesProbability: Option<MissingPackagesProbability> := None)
      ensures Valid()
      ensures this.mac == mac && this.x == x && this.y == y && this.frequency == frequency
      ensures this.a1 == a1 && this.a2 == a2
      ensures this.tx == tx && this.n == n && this.noiseStdDev == noiseStdDev
      ensures this.missingPackagesProbability == missingPackagesProbability
      ensures lastTransmissionTimestamp == initialTimestamp
      ensures nextTransmissionTimestamp == initialTimestamp + frequency
    {
      this.mac := mac;
      this.x := x;
      this.y := y;
      this.frequency := frequency;
      this.a1 := a1;
      this.a2 := a2;
      this.tx := tx;
      this.n := n;
      this.noiseStdDev := noiseStdDev;
      this.missingPackagesProbability := missingPackagesProbability;
      lastTransmissionTimestamp := initialTimestamp;
      nextTransmissionTimestamp := initialTimestamp + frequency;
    }

    /** The `last_transmission_timestamp` setter: it records the transmission
        and reschedules the next one a period later. The new state depends on
        the timestamp alone, so setting the same timestamp twice is the same
        as setting it once. */
    method SetLastTransmissionTimestamp(timestamp: int)
      modifies this
      ensures Valid()
      ensures lastTransmissionTimestamp == timestamp
      ensures nextTransmissionTimestamp == timestamp + frequency
    {
      lastTransmissionTimestamp := timestamp;
      nextTransmissionTimestamp := lastTransmissionTimestamp + frequency;
    }
  }
}
