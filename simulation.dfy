/** One round of the IoT simulator's loop
    (backend/monitor/management/commands/start_simulation.py): one new
    reading per simulated sensor, then the oldest 100 rows are deleted once
    the table holds more than 1000. The WaterSensor table is a class whose
    rows are kept in insertion order, which is timestamp order. */
module Simulation {
  import opened Models
  import opened Counting
  import Dashboard

  const SensorIds: seq<string> := ["SENSOR-001", "SENSOR-002", "SENSOR-003"]

  /** Above this many rows the round deletes the oldest ones ... */
  const MaxRows: nat := 1000
  /** ... this many of them. */
  const CleanupBatch: nat := 100

  /** A draw of `random.random()`, in [0, 1]. */
  type UnitDraw = u: real | 0.0 <= u <= 1.0

  /** `random.uniform(lo, hi)`, that is lo + (hi - lo) * u. */
  function Uniform(lo: real, hi: real, u: UnitDraw): (x: real)
    requires lo <= hi
    ensures lo <= x <= hi
  {
    var width := hi - lo;
    assert width * u <= width by {
      assert width * (1.0 - u) >= 0.0;
    }
    lo + width * u
  }

  /** The five draws one reading consumes. */
  datatype Draws = Draws(ph: UnitDraw, turbidity: UnitDraw, temperature: UnitDraw,
                         dissolvedOxygen: UnitDraw, conductivity: UnitDraw)

  /** A reading with every channel within the range the simulator draws from. */
  predicate InSimulatedRanges(r: SensorReading)
  {
    && 6.5 <= r.ph <= 8.5
    && 0.5 <= r.turbidity <= 5.0
    && 20.0 <= r.temperature <= 30.0
    && 6.0 <= r.dissolvedOxygen <= 9.0
    && 300.0 <= r.conductivity <= 600.0
  }

  /** The row `WaterSensor.objects.create` inserts for one sensor. */
  function NewReading(id: nat, sensorId: string, now: int, d: Draws): (r: SensorReading)
    ensures r.id == id && r.sensorId == sensorId && r.timestamp == now
    ensures InSimulatedRanges(r)
  {
    SensorReading(id, sensorId, now,
                  Uniform(6.5, 8.5, d.ph),
                  Uniform(0.5, 5.0, d.turbidity),
                  Uniform(20.0, 30.0, d.temperature),
                  Uniform(6.0, 9.0, d.dissolvedOxygen),
                  Uniform(300.0, 600.0, d.conductivity))
  }

  /** No simulated reading is an anomaly for the dashboard. */
  lemma SimulatedIsNeverAnomalous(r: SensorReading)
    requires InSimulatedRanges(r)
    ensures !Dashboard.IsSensorAnomaly(r)
  {
  }

  /** A feed made only of simulated readings never raises the dashboard's sensor count. */
  lemma SimulatedFeedHasNoIssues(sensorsNewestFirst: seq<SensorReading>)
    requires forall i :: 0 <= i < |sensorsNewestFirst| ==> InSimulatedRanges(sensorsNewestFirst[i])
    ensures Count(Take(sensorsNewestFirst, Dashboard.RecentLimit), Dashboard.IsSensorAnomaly) == 0
  {
    var recent := Take(sensorsNewestFirst, Dashboard.RecentLimit);
    CountZeroIff(recent, Dashboard.IsSensorAnomaly);
  }

  /** The rows one round inserts, in the order of `SensorIds`. */
  function RoundRows(firstId: nat, now: int, draws: seq<Draws>): (rs: seq<SensorReading>)
    requires |draws| == |SensorIds|
    ensures |rs| == |SensorIds|
    ensures forall i :: 0 <= i < |rs| ==> rs[i] == NewReading(firstId + i, SensorIds[i], now, draws[i])
  {
    seq(|SensorIds|, i requires 0 <= i < |SensorIds| => NewReading(firstId + i, SensorIds[i], now, draws[i]))
  }

  /** The cleanup step on a table in timestamp order: drop the first `CleanupBatch` rows once there are more than `MaxRows`. */
  function Cleanup(rows: seq<SensorReading>): seq<SensorReading>
  {
    if |rows| > MaxRows then rows[CleanupBatch..] else rows
  }

  /** Rows in timestamp order with strictly increasing ids. */
  ghost predicate Ordered(rows: seq<SensorReading>)
  {
    forall i, j :: 0 <= i < j < |rows| ==> rows[i].timestamp <= rows[j].timestamp && rows[i].id < rows[j].id
  }

  /** A row no older and with a larger id than every row keeps the table ordered. */
  lemma AppendOrdered(rows: seq<SensorReading>, r: SensorReading)
    requires Ordered(rows)
    requires forall i :: 0 <= i < |rows| ==> rows[i].timestamp <= r.timestamp && rows[i].id < r.id
    ensures Ordered(rows + [r])
  {
  }

  /** Cleanup runs exactly above `MaxRows`, then removes exactly `CleanupBatch`
      rows, every one of them no newer than any survivor, and leaves the
      survivors as they were, in their order. */
  lemma CleanupRemovesOldest(rows: seq<SensorReading>)
    requires Ordered(rows)
    ensures |rows| <= MaxRows ==> Cleanup(rows) == rows
    ensures |rows| > MaxRows ==>
      && |Cleanup(rows)| == |rows| - CleanupBatch
      && Cleanup(rows) == rows[|rows| - |Cleanup(rows)|..]
      && forall d, s :: 0 <= d < CleanupBatch <= s < |rows| ==> rows[d].timestamp <= rows[s].timestamp
    ensures Ordered(Cleanup(rows))
  {
  }

  /** The WaterSensor table as the simulator drives it. */
  class SensorTable {
    var rows: seq<SensorReading>
    // the next auto-increment id
    var nextId: nat
    // the latest instant the table has seen
    var clock: int

    ghost predicate Valid()
      reads this
    {
      && Ordered(rows)
      && (forall i :: 0 <= i < |rows| ==> rows[i].id < nextId && rows[i].timestamp <= clock)
    }

    constructor (start: int)
      ensures Valid() && rows == [] && nextId == 0 && clock == start
    {
      rows, nextId, clock := [], 0, start;
    }

    /** One iteration of the `while True` loop, at instant `now` with the
        round's random draws: append one reading per sensor, then clean up. */
    method Round(now: int, draws: seq<Draws>)
      requires Valid()
      requires now >= clock
      requires |draws| == |SensorIds|
      modifies this
      ensures Valid()
      ensures rows == Cleanup(old(rows) + RoundRows(old(nextId), now, draws))
      ensures nextId == old(nextId) + |SensorIds| && clock == now
      ensures |old(rows)| <= MaxRows ==> |rows| <= MaxRows
    {
      clock := now;
      ghost var added := RoundRows(nextId, now, draws);
      for i := 0 to |SensorIds|
        invariant nextId == old(nextId) + i && clock == now
        invariant rows == old(rows) + added[..i]
        invariant Valid()
      {
        var reading := NewReading(nextId, SensorIds[i], now, draws[i]);
        AppendOrdered(rows, reading);
        assert added[..i + 1] == added[..i] + [reading];
        rows := rows + [reading];
        nextId := nextId + 1;
      }
      assert added[..|SensorIds|] == added;
      if |rows| > MaxRows {
        rows := rows[CleanupBatch..];
      }
    }
  }
}
