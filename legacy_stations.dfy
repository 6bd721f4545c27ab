/** The older station class (classes/station.py): the same scheduling state
    and setter, without the A1/A2 parameters. */
module LegacyStations {

  class Station {
    const mac: string
    const x: real
    const y: real
    const frequency: int

    var lastTransmissionTimestamp: int
    var nextTransmissionTimestamp: int

    ghost predicate Valid()
      reads this
    {
      nextTransmissionTimestamp == lastTransmissionTimestamp + frequency
    }

    constructor (mac: string, x: real, y: real, frequency: int, initialTimestamp: int := 0)
      ensures Valid()
      ensures this.mac == mac && this.x == x && this.y == y && this.frequency == frequency
      ensures lastTransmissionTimestamp == initialTimestamp
      ensures nextTransmissionTimestamp == initialTimestamp + frequency
    {
      this.mac := mac;
      this.x := x;
      this.y := y;
      this.frequency := frequency;
      lastTransmissionTimestamp := initialTimestamp;
      nextTransmissionTimestamp := initialTimestamp + frequency;
    }

    /** Records a transmission and reschedules the next one a period later. */
    method SetLastTransmissionTimestamp(timestamp: int)
      modifies this
      ensures Valid()
      ensures lastTransmissionTimestamp == timestamp
      ensures nextTransmissionTimestamp == timestamp + frequency
    {
      lastTransmissionTimestamp := timestamp;
      nextTransmissionTimestamp := lastTransmissionTimestamp + frequency;
    }
  }
}
