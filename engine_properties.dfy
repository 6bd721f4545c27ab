/** Properties of a simulation run (classes/simulation.py, `start`), stated
    about the functional description in module EngineSpec, which the engine
    in module Engine is proved to follow. */
module EngineProperties {
  import opened Wrappers
  import opened Numerics
  import opened Stations
  import opened LogDistance
  import opened EngineSpec

  // ---------------------------------------------------------------------
  // Scheduling

  /** A station whose last transmission was at `last` is stamped at tick t
      when its next transmission time has come. */
  function Stamp(last: int, frequency: int, t: int): int {
    if last + frequency <= t then t else last
  }

  /** The last transmission time of a station, starting from `last`, once
      ticks 0 .. n-1 have run without error. */
  function LastAfter(last: int, frequency: int, n: nat): int {
    if n == 0 then last else Stamp(LastAfter(last, frequency, n - 1), frequency, n - 1)
  }

  /** A station loop over a strictly increasing list of station indices
      that ends without error stamps exactly the listed stations with t and
      only appends rows. */
  lemma {:induction false} ProcessDueStamps(s: Setup, t: nat, r: Receiver, due: seq<nat>, lasts: seq<int>, rows: seq<Row>)
    requires |lasts| == |s.stations|
    requires forall k :: 0 <= k < |due| ==> due[k] < |s.stations|
    requires forall j, k :: 0 <= j < k < |due| ==> due[j] < due[k]
    ensures var o := ProcessDue(s, t, r, due, lasts, rows);
      && rows <= o.rows
      && (o.failure.None? ==> forall i :: 0 <= i < |lasts| ==> o.lasts[i] == if i in due then t else lasts[i])
    decreases |due|
  {
    if due != [] {
      var o := Visit(s, t, r, due[0], lasts, rows);
      if o.failure.None? {
        ProcessDueStamps(s, t, r, due[1..], o.lasts, o.rows);
        forall i | 0 <= i < |lasts|
          ensures i in due <==> i == due[0] || i in due[1..]
        {
          if i in due {
            var k :| 0 <= k < |due| && due[k] == i;
            if k > 0 {
              assert due[1..][k - 1] == i;
            }
          }
        }
      }
    }
  }

  /** A tick that ends without error stamps every due station with t and
      leaves the others alone; it only appends RSSI rows. */
  lemma TickStamps(s: Setup, t: nat, r: Receiver, lasts: seq<int>, rows: seq<Row>)
    requires |lasts| == |s.stations|
    ensures var o := Tick(s, t, r, lasts, rows);
      && rows <= o.rows
      && (o.failure.None? ==>
            forall i :: 0 <= i < |lasts| ==> o.lasts[i] == Stamp(lasts[i], s.stations[i].frequency, t))
  {
    var due := Due(s, lasts, t, |s.stations|);
    DueExactly(s, lasts, t, |s.stations|);
    ProcessDueStamps(s, t, r, due, lasts, rows);
  }

  /** The stations' timestamps after ticks 0 .. t-1, starting from `lasts0`. */
  ghost predicate StampedUpTo(s: Setup, lasts0: seq<int>, lasts: seq<int>, t: nat)
    requires |lasts0| == |lasts| == |s.stations|
  {
    forall i :: 0 <= i < |lasts| ==> lasts[i] == LastAfter(lasts0[i], s.stations[i].frequency, t)
  }

  /** A run from tick t that ends without error leaves each station with the
      timestamp its own schedule gives after the last tick. */
  lemma {:induction false} RunFromLasts(s: Setup, t: nat, r: Receiver, lasts0: seq<int>, lasts: seq<int>,
                                        trajectoryRows: seq<Row>, rssiRows: seq<Row>)
    requires |lasts0| == |lasts| == |s.stations| && t < s.ticks
    requires StampedUpTo(s, lasts0, lasts, t)
    ensures var p := RunFrom(s, t, r, lasts, trajectoryRows, rssiRows);
      p.failure.None? ==> StampedUpTo(s, lasts0, p.lasts, s.ticks)
    decreases s.ticks - t
  {
    var o := Tick(s, t, r, lasts, rssiRows);
    TickStamps(s, t, r, lasts, rssiRows);
    if o.failure.None? {
      assert StampedUpTo(s, lasts0, o.lasts, t + 1);
      if t + 1 < s.ticks {
        RunFromLasts(s, t + 1, Advance(s, r, t + 1), lasts0, o.lasts, trajectoryRows + [TrajectoryRow(t, r)], o.rows);
      }
    }
  }

  /** x is a non-negative multiple of f. */
  predicate MultipleOf(x: int, f: int)
    requires f >= 1
    decreases x
  {
    x == 0 || (x >= f && MultipleOf(x - f, f))
  }

  /** A station created with the default timestamp 0 and a positive period
      has, after n >= 1 error-free ticks, last transmitted at the largest
      multiple of its period that is below n. */
  lemma {:induction false} LastAfterFromZero(frequency: int, n: nat)
    requires frequency >= 1 && n >= 1
    ensures var last := LastAfter(0, frequency, n);
      MultipleOf(last, frequency) && last <= n - 1 < last + frequency
  {
    if n > 1 {
      LastAfterFromZero(frequency, n - 1);
    }
  }

  /** Two distinct non-negative multiples of f are at least f apart. */
  lemma {:induction false} MultipleGap(a: int, b: int, f: int)
    requires f >= 1 && MultipleOf(a, f) && MultipleOf(b, f) && a < b
    ensures a + f <= b
    decreases a
  {
    if a != 0 {
      MultipleGap(a - f, b - f, f);
    }
  }

  /** With the default timestamp 0 and a positive period f, a station is due
      at tick t exactly when t is a positive multiple of f: it fires at f, 2f,
      3f, ... with no drift. */
  lemma DueAtMultiples(frequency: int, t: nat)
    requires frequency >= 1
    ensures LastAfter(0, frequency, t) + frequency <= t <==> t >= frequency && MultipleOf(t, frequency)
  {
    if t >= 1 {
      var last := LastAfter(0, frequency, t);
      LastAfterFromZero(frequency, t);
      if last + frequency <= t {
        assert t == last + frequency;
        assert MultipleOf(t, frequency) by {
          assert t - frequency == last;
        }
      }
      if t >= frequency && MultipleOf(t, frequency) {
        MultipleGap(last, t, frequency);
      }
    }
  }

  /** A run that ends without error leaves every station that started at
      timestamp 0 with a positive period at the largest multiple of its
      period below the number of iterations. */
  lemma RunSchedule(s: Setup, r0: Receiver, lasts0: seq<int>)
    requires |lasts0| == |s.stations| && s.ticks >= 1
    requires forall i :: 0 <= i < |lasts0| ==> lasts0[i] == 0 && s.stations[i].frequency >= 1
    ensures var p := Run(s, r0, lasts0);
      p.failure.None? ==>
        forall i :: 0 <= i < |p.lasts| ==>
          && MultipleOf(p.lasts[i], s.stations[i].frequency)
          && p.lasts[i] <= s.ticks - 1 < p.lasts[i] + s.stations[i].frequency
  {
    RunFromLasts(s, 0, r0, lasts0, lasts0, [], []);
    forall i | 0 <= i < |lasts0| {
      LastAfterFromZero(s.stations[i].frequency, s.ticks);
    }
  }

  /** A station with period f (f >= 1) that started at timestamp 0 fires at
      tick t: t is one of f, 2f, 3f, ... */
  predicate FiresAt(frequency: int, t: int) {
    frequency >= 1 && t >= frequency && MultipleOf(t, frequency)
  }

  /** At any tick t of a run from all-zero timestamps, in the state every
      error-free prefix of the run leaves (`StampedUpTo`), a station is due
      exactly when t is a positive multiple of its period. */
  lemma DueFromZero(s: Setup, lasts0: seq<int>, lasts: seq<int>, t: nat, i: nat)
    requires |lasts0| == |lasts| == |s.stations| && i < |s.stations|
    requires lasts0[i] == 0 && s.stations[i].frequency >= 1
    requires StampedUpTo(s, lasts0, lasts, t)
    ensures IsDue(s, lasts, t, i) <==> FiresAt(s.stations[i].frequency, t)
  {
    DueAtMultiples(s.stations[i].frequency, t);
  }

  /** An RSSI row written at a tick where a station carrying the row's MAC
      fires. */
  ghost predicate ScheduledRow(s: Setup, row: Row) {
    && |row| == 5 && row[0].RealCell?
    && exists i :: 0 <= i < |s.stations| && row[3] == TextCell(s.stations[i].mac)
         && FiresAt(s.stations[i].frequency, (row[0].r * 1000.0).Floor)
  }

  ghost predicate AllScheduled(s: Setup, rows: seq<Row>) {
    forall k :: 0 <= k < |rows| ==> ScheduledRow(s, rows[k])
  }

  lemma {:induction false} ScheduledProcessDue(s: Setup, t: nat, r: Receiver, due: seq<nat>, lasts: seq<int>, rows: seq<Row>)
    requires |lasts| == |s.stations|
    requires forall k :: 0 <= k < |due| ==> due[k] < |s.stations| && FiresAt(s.stations[due[k]].frequency, t)
    requires AllScheduled(s, rows)
    ensures AllScheduled(s, ProcessDue(s, t, r, due, lasts, rows).rows)
    decreases |due|
  {
    if due != [] {
      var i := due[0];
      var reading := s.rssi(s.stations[i], r.x, r.y, s.draws.rssi(t, i));
      var o := Visit(s, t, r, i, lasts, rows);
      if reading.Success? && reading.value.Some? {
        var row := RssiRow(t, r, s.stations[i].mac, reading.value.value);
        assert (t as real / 1000.0) * 1000.0 == t as real;
        assert ScheduledRow(s, row);
        assert o.rows == rows + [row];
      }
      assert AllScheduled(s, o.rows);
      if o.failure.None? {
        ScheduledProcessDue(s, t, r, due[1..], o.lasts, o.rows);
      }
    }
  }

  lemma {:induction false} ScheduledRunFrom(s: Setup, t: nat, r: Receiver, lasts0: seq<int>, lasts: seq<int>,
                                            trajectoryRows: seq<Row>, rssiRows: seq<Row>)
    requires |lasts0| == |lasts| == |s.stations| && t < s.ticks
    requires forall i :: 0 <= i < |lasts0| ==> lasts0[i] == 0 && s.stations[i].frequency >= 1
    requires StampedUpTo(s, lasts0, lasts, t) && AllScheduled(s, rssiRows)
    ensures AllScheduled(s, RunFrom(s, t, r, lasts, trajectoryRows, rssiRows).rssiRows)
    decreases s.ticks - t
  {
    var due := Due(s, lasts, t, |s.stations|);
    DueExactly(s, lasts, t, |s.stations|);
    forall k | 0 <= k < |due|
      ensures FiresAt(s.stations[due[k]].frequency, t)
    {
      DueFromZero(s, lasts0, lasts, t, due[k]);
    }
    ScheduledProcessDue(s, t, r, due, lasts, rssiRows);
    var o := Tick(s, t, r, lasts, rssiRows);
    TickStamps(s, t, r, lasts, rssiRows);
    if o.failure.None? && t + 1 < s.ticks {
      assert StampedUpTo(s, lasts0, o.lasts, t + 1);
      ScheduledRunFrom(s, t + 1, Advance(s, r, t + 1), lasts0, o.lasts, trajectoryRows + [TrajectoryRow(t, r)], o.rows);
    }
  }

  /** In a run whose stations all start at timestamp 0 with a positive
      period, every RSSI row (error or not) was written at a tick that is a
      positive multiple of the period of a station with that row's MAC: no
      station transmits between its multiples. */
  lemma RssiRowsScheduled(s: Setup, r0: Receiver, lasts0: seq<int>)
    requires |lasts0| == |s.stations| && s.ticks >= 1
    requires forall i :: 0 <= i < |lasts0| ==> lasts0[i] == 0 && s.stations[i].frequency >= 1
    ensures AllScheduled(s, Run(s, r0, lasts0).rssiRows)
  {
    ScheduledRunFrom(s, 0, r0, lasts0, lasts0, [], []);
  }

  // ---------------------------------------------------------------------
  // Errors

  /** The RSSI module gives a reading (possibly a lost one) for every
      station of the run, wherever the receiver is and whatever the draws. */
  ghost predicate Reliable(s: Setup) {
    forall i, x, y, d :: 0 <= i < |s.stations| ==> s.rssi(s.stations[i], x, y, d).Success?
  }

  /** The log-distance module is reliable on stations that all carry Tx and
      n and whose packet-loss record, if any, is complete. */
  lemma LogDistanceReliable(s: Setup, m: MathLib)
    requires s.rssi == LogDistanceModule(m)
    requires forall i :: 0 <= i < |s.stations| ==> Configured(s.stations[i])
    ensures Reliable(s)
  {
    forall i, x, y, d | 0 <= i < |s.stations|
      ensures s.rssi(s.stations[i], x, y, d).Success?
    {
      ConfiguredNeverFails(m, s.stations[i], x, y, d);
    }
  }

  lemma {:induction false} ReliableProcessDue(s: Setup, t: nat, r: Receiver, due: seq<nat>, lasts: seq<int>, rows: seq<Row>)
    requires Reliable(s) && |lasts| == |s.stations|
    requires forall k :: 0 <= k < |due| ==> due[k] < |s.stations|
    ensures ProcessDue(s, t, r, due, lasts, rows).failure.None?
    decreases |due|
  {
    if due != [] {
      var o := Visit(s, t, r, due[0], lasts, rows);
      assert s.rssi(s.stations[due[0]], r.x, r.y, s.draws.rssi(t, due[0])).Success?;
      ReliableProcessDue(s, t, r, due[1..], o.lasts, o.rows);
    }
  }

  lemma {:induction false} ReliableRunFrom(s: Setup, t: nat, r: Receiver, lasts: seq<int>,
                                           trajectoryRows: seq<Row>, rssiRows: seq<Row>)
    requires Reliable(s) && |lasts| == |s.stations| && t < s.ticks
    ensures RunFrom(s, t, r, lasts, trajectoryRows, rssiRows).failure.None?
    decreases s.ticks - t
  {
    var o := Tick(s, t, r, lasts, rssiRows);
    ReliableProcessDue(s, t, r, Due(s, lasts, t, |s.stations|), lasts, rssiRows);
    if t + 1 < s.ticks {
      ReliableRunFrom(s, t + 1, Advance(s, r, t + 1), o.lasts, trajectoryRows + [TrajectoryRow(t, r)], o.rows);
    }
  }

  /** A run with a reliable RSSI module never ends early with an error. */
  lemma ReliableRunSucceeds(s: Setup, r0: Receiver, lasts0: seq<int>)
    requires Reliable(s) && |lasts0| == |s.stations| && s.ticks >= 1
    ensures Run(s, r0, lasts0).failure.None?
  {
    ReliableRunFrom(s, 0, r0, lasts0, [], []);
  }

  // ---------------------------------------------------------------------
  // The trajectory file

  /** The trajectory rows of the first n ticks. */
  function Trajectory(s: Setup, r0: Receiver, n: nat): (rows: seq<Row>)
    ensures |rows| == n
  {
    if n == 0 then [] else Trajectory(s, r0, n - 1) + [TrajectoryRow(n - 1, ReceiverAt(s, r0, n - 1))]
  }

  /** Row k of the trajectory is the row of tick k. */
  lemma {:induction false} TrajectoryRows(s: Setup, r0: Receiver, n: nat)
    ensures forall k :: 0 <= k < n ==> Trajectory(s, r0, n)[k] == TrajectoryRow(k, ReceiverAt(s, r0, k))
  {
    if n > 0 {
      TrajectoryRows(s, r0, n - 1);
    }
  }

  /** The trajectory rows of a run that got past tick t: those of its
      first ticks, all of them when the run ends without error. */
  ghost predicate TrajectoryOf(s: Setup, r0: Receiver, t: nat, p: Progress) {
    && t < |p.trajectoryRows| <= s.ticks
    && p.trajectoryRows == Trajectory(s, r0, |p.trajectoryRows|)
    && (p.failure.None? ==> |p.trajectoryRows| == s.ticks)
  }

  lemma {:induction false} RunFromTrajectory(s: Setup, r0: Receiver, t: nat, r: Receiver, lasts: seq<int>,
                                             trajectoryRows: seq<Row>, rssiRows: seq<Row>)
    requires |lasts| == |s.stations| && t < s.ticks
    requires r == ReceiverAt(s, r0, t) && trajectoryRows == Trajectory(s, r0, t)
    ensures TrajectoryOf(s, r0, t, RunFrom(s, t, r, lasts, trajectoryRows, rssiRows))
    decreases s.ticks - t
  {
    var rows' := trajectoryRows + [TrajectoryRow(t, r)];
    assert rows' == Trajectory(s, r0, t + 1);
    var o := Tick(s, t, r, lasts, rssiRows);
    var p := RunFrom(s, t, r, lasts, trajectoryRows, rssiRows);
    if o.failure.Some? || t + 1 >= s.ticks {
      assert p.trajectoryRows == rows';
    } else {
      var r' := Advance(s, r, t + 1);
      assert r' == ReceiverAt(s, r0, t + 1);
      RunFromTrajectory(s, r0, t + 1, r', o.lasts, rows', o.rows);
      assert p == RunFrom(s, t + 1, r', o.lasts, rows', o.rows);
    }
  }

  /** The trajectory file holds one row per iteration run, the row of tick
      k giving step k+1, time k/1000 s and the receiver's position at tick
      k; a run that ends without error covers every iteration. */
  lemma RunTrajectory(s: Setup, r0: Receiver, lasts0: seq<int>)
    requires |lasts0| == |s.stations| && s.ticks >= 1
    ensures var p := Run(s, r0, lasts0);
      && 1 <= |p.trajectoryRows| <= s.ticks
      && p.trajectoryRows == Trajectory(s, r0, |p.trajectoryRows|)
      && (p.failure.None? ==> |p.trajectoryRows| == s.ticks)
  {
    assert Trajectory(s, r0, 0) == [];
    RunFromTrajectory(s, r0, 0, r0, lasts0, [], []);
    assert TrajectoryOf(s, r0, 0, Run(s, r0, lasts0));
  }

  // ---------------------------------------------------------------------
  // The RSSI file

  /** Every reading the module gives is at least the -100 dBm floor. */
  ghost predicate Floored(s: Setup) {
    forall i, x, y, d :: 0 <= i < |s.stations| ==>
      var reading := s.rssi(s.stations[i], x, y, d);
      reading.Success? && reading.value.Some? ==> reading.value.value >= MinimumRssi
  }

  /** Every row in `rows` is a well-formed RSSI row for a run of n ticks. */
  predicate RowsOk(rows: seq<Row>, n: nat) {
    forall k :: 0 <= k < |rows| ==> RssiRowOk(rows[k], n)
  }

  /** An RSSI row stamped with a whole millisecond below n (the time is
      written in seconds) whose reading is at least the floor. */
  predicate RssiRowOk(row: Row, n: nat) {
    && |row| == 5 && row[0].RealCell? && row[4].IntCell? && row[4].i >= MinimumRssi
    && var ms := row[0].r * 1000.0;
      0.0 <= ms < n as real && ms.Floor as real == ms
  }

  lemma RssiRowOkAt(t: nat, r: Receiver, mac: string, rssi: int, n: nat)
    requires t < n && rssi >= MinimumRssi
    ensures RssiRowOk(RssiRow(t, r, mac, rssi), n)
  {
    assert (t as real / 1000.0) * 1000.0 == t as real;
  }

  lemma {:induction false} FlooredProcessDue(s: Setup, t: nat, r: Receiver, due: seq<nat>, lasts: seq<int>, rows: seq<Row>, n: nat)
    requires Floored(s) && |lasts| == |s.stations| && t < n
    requires forall k :: 0 <= k < |due| ==> due[k] < |s.stations|
    requires RowsOk(rows, n)
    ensures RowsOk(ProcessDue(s, t, r, due, lasts, rows).rows, n)
    decreases |due|
  {
    if due != [] {
      var i := due[0];
      var reading := s.rssi(s.stations[i], r.x, r.y, s.draws.rssi(t, i));
      var o := Visit(s, t, r, i, lasts, rows);
      if reading.Success? && reading.value.Some? {
        RssiRowOkAt(t, r, s.stations[i].mac, reading.value.value, n);
        assert o.rows == rows + [RssiRow(t, r, s.stations[i].mac, reading.value.value)];
      }
      assert RowsOk(o.rows, n);
      if o.failure.None? {
        FlooredProcessDue(s, t, r, due[1..], o.lasts, o.rows, n);
      }
    }
  }

  lemma {:induction false} FlooredRunFrom(s: Setup, t: nat, r: Receiver, lasts: seq<int>,
                                          trajectoryRows: seq<Row>, rssiRows: seq<Row>)
    requires Floored(s) && |lasts| == |s.stations| && t < s.ticks
    requires RowsOk(rssiRows, s.ticks)
    ensures RowsOk(RunFrom(s, t, r, lasts, trajectoryRows, rssiRows).rssiRows, s.ticks)
    decreases s.ticks - t
  {
    var o := Tick(s, t, r, lasts, rssiRows);
    FlooredProcessDue(s, t, r, Due(s, lasts, t, |s.stations|), lasts, rssiRows, s.ticks);
    if o.failure.None? && t + 1 < s.ticks {
      FlooredRunFrom(s, t + 1, Advance(s, r, t + 1), o.lasts, trajectoryRows + [TrajectoryRow(t, r)], o.rows);
    }
  }

  /** The log-distance module never reports a reading below the floor. */
  lemma LogDistanceFloored(s: Setup, m: MathLib)
    requires s.rssi == LogDistanceModule(m)
    ensures Floored(s)
  {
  }

  /** Every row of the RSSI file carries a reading of at least -100 dBm,
      taken at one of the run's iterations. */
  lemma RssiRowsOk(s: Setup, r0: Receiver, lasts0: seq<int>)
    requires Floored(s) && |lasts0| == |s.stations| && s.ticks >= 1
    ensures RowsOk(Run(s, r0, lasts0).rssiRows, s.ticks)
  {
    FlooredRunFrom(s, 0, r0, lasts0, [], []);
  }
}
