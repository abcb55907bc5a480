/**
 * Seed tables and synthetic data generators (lib/mock-data.ts).
 *
 * `Math.random()` and the clock are parameters: a draw is a real in
 * [0, 1), "now" is a millisecond timestamp and "today" is a day number.
 * Seed timestamps are the literals of the seed tables read as UTC.
 */
module MockData {
  import opened Seqs
  import opened Types

  const MinuteMs: int := 60000
  const HourMs: int := 3600000
  const DayMs: int := 86400000

  /** 2026-01-31T00:00:00 as milliseconds since the epoch (read as UTC). */
  const SeedDayMs: int := 1769817600000

  /** The seed literal '2026-01-31Thh:mm:00'. */
  function At(hour: nat, minute: nat): Timestamp
  {
    SeedDayMs + (hour * 60 + minute) * MinuteMs
  }

  // ---------------------------------------------------------------------
  // Seed tables

  const Fields: seq<Field> := [
    Field("field-1", "North Field", "Section A", "Wheat", 50.0, [
      Device("pump-1", "Main Pump", Pump, true, At(10, 30), "field-1"),
      Device("motor-1", "Irrigation Motor", Motor, false, At(9, 15), "field-1"),
      Device("valve-1", "Water Valve", Valve, true, At(10, 0), "field-1")]),
    Field("field-2", "South Field", "Section B", "Corn", 75.0, [
      Device("pump-2", "Secondary Pump", Pump, false, At(8, 45), "field-2"),
      Device("sprinkler-1", "Sprinkler System", Sprinkler, true, At(10, 20), "field-2")]),
    Field("field-3", "East Field", "Section C", "Soybeans", 40.0, [
      Device("pump-3", "Drip Pump", Pump, true, At(10, 10), "field-3"),
      Device("motor-2", "Distribution Motor", Motor, true, At(9, 50), "field-3")])
  ]

  const InitialAlerts: seq<Alert> := [
    Alert("alert-1", Critical, "Soil moisture critically low", "Soil Moisture",
          15.0, 25.0, At(10, 25), "field-1", false),
    Alert("alert-2", Warning, "Temperature above optimal range", "Temperature",
          38.0, 35.0, At(10, 15), "field-2", false),
    Alert("alert-3", Info, "Water tank level restored", "Water Level",
          85.0, 80.0, At(9, 45), "field-3", true)
  ]

  const InitialAutomationRules: seq<AutomationRule> := [
    AutomationRule("rule-1", "Auto Irrigation", true,
                   Condition(SoilMoisture, LessThan, 30.0),
                   Action("pump-1", "Main Pump", true),
                   "field-1", Some(At(10, 25))),
    AutomationRule("rule-2", "Heat Protection", true,
                   Condition(Temperature, GreaterThan, 35.0),
                   Action("sprinkler-1", "Sprinkler System", true),
                   "field-2", Some(At(10, 15))),
    AutomationRule("rule-3", "Water Conservation", false,
                   Condition(WaterLevel, LessThan, 20.0),
                   Action("pump-2", "Secondary Pump", false),
                   "field-2", None)
  ]

  // ---------------------------------------------------------------------
  // generateSensorData

  /** The sample taken `hoursAgo` hours before `now`; its readings come
      from `reading`, which stands for the random and trigonometric terms. */
  function SampleAt(now: Timestamp, hoursAgo: nat, reading: nat -> SensorValues): (d: SensorData)
    ensures d.timestamp == now - hoursAgo * HourMs
  {
    var v := reading(hoursAgo);
    SensorData(now - hoursAgo * HourMs, v.soilMoisture, v.temperature, v.humidity, v.waterLevel)
  }

  /** `hours + 1` hourly samples, oldest first, the last one taken at `now`. */
  method GenerateSensorData(hours: nat, now: Timestamp, reading: nat -> SensorValues)
    returns (data: seq<SensorData>)
    ensures |data| == hours + 1
    ensures forall k :: 0 <= k < |data| ==> data[k] == SampleAt(now, hours - k, reading)
    ensures data[0].timestamp == now - hours * HourMs && data[hours].timestamp == now
    ensures forall k :: 0 <= k < hours ==> data[k + 1].timestamp == data[k].timestamp + HourMs
  {
    data := [];
    var i: int := hours;
    while i >= 0
      invariant -1 <= i <= hours
      invariant |data| == hours - i
      invariant forall k :: 0 <= k < |data| ==> data[k] == SampleAt(now, hours - k, reading)
    {
      data := data + [SampleAt(now, i, reading)];
      i := i - 1;
    }
  }

  // ---------------------------------------------------------------------
  // generateHistoricalData

  /** The six `Math.random()` draws one history record consumes, in order. */
  datatype HistoryDraw = HistoryDraw(
    field: real, moisture: real, temperature: real,
    humidity: real, water: real, pump: real)

  predicate IsDraw(r: real) { 0.0 <= r < 1.0 }

  predicate ValidDraw(d: HistoryDraw)
  {
    IsDraw(d.field) && IsDraw(d.moisture) && IsDraw(d.temperature) &&
    IsDraw(d.humidity) && IsDraw(d.water) && IsDraw(d.pump)
  }

  const FieldNames: seq<string> := ["North Field", "South Field", "East Field"]

  /** `Math.round`: halves round up. */
  function Round(x: real): (n: int)
    ensures x - 0.5 < n as real <= x + 0.5
  {
    (x + 0.5).Floor
  }

  /** `Math.round(base + r * spread)` lies in [base, base + spread] for a draw `r`. */
  lemma RoundScaledDraw(base: int, spread: int, r: real)
    requires spread >= 0 && IsDraw(r)
    ensures base <= Round(base as real + r * spread as real) <= base + spread
  {
    var sp := spread as real;
    assert 0.0 <= r * sp <= sp;
    assert base as real <= base as real + r * sp <= (base + spread) as real;
  }

  /** `Math.floor(Math.random() * 3)`. */
  function FieldIndex(r: real): (i: nat)
    requires IsDraw(r)
    ensures i < |FieldNames|
  {
    (r * 3.0).Floor
  }

  /** `record-${day}-${hour}-${fieldIndex}`. */
  function RecordId(day: nat, hour: nat, fieldIndex: nat): string
  {
    "record-" + NatToString(day) + "-" + NatToString(hour) + "-" + NatToString(fieldIndex)
  }

  /** The record generated for `hour` o'clock, `day` days before `today`. */
  function HistoryRecord(today: int, day: nat, hour: nat, d: HistoryDraw): (r: HistoricalRecord)
    requires ValidDraw(d)
    ensures r.fieldName in FieldNames
    ensures r.pumpStatus == "Active" || r.pumpStatus == "Inactive"
    ensures 20 <= r.soilMoisture <= 70 && 18 <= r.temperature <= 38
    ensures 35 <= r.humidity <= 75 && 50 <= r.waterLevel <= 95
    ensures r.timestamp == (today - day) * DayMs + hour * HourMs
  {
    var fi := FieldIndex(d.field);
    RoundScaledDraw(20, 50, d.moisture);
    RoundScaledDraw(18, 20, d.temperature);
    RoundScaledDraw(35, 40, d.humidity);
    RoundScaledDraw(50, 45, d.water);
    HistoricalRecord(
      RecordId(day, hour, fi),
      (today - day) * DayMs + hour * HourMs,
      FieldNames[fi],
      Round(20.0 + d.moisture * 50.0),
      Round(18.0 + d.temperature * 20.0),
      Round(35.0 + d.humidity * 40.0),
      Round(50.0 + d.water * 45.0),
      if d.pump > 0.5 then "Active" else "Inactive")
  }

  /** Seven days, oldest first, times six four-hour slots. */
  const SlotCount: nat := 42

  function SlotDay(k: nat): nat requires k < SlotCount { 6 - k / 6 }

  function SlotHour(k: nat): nat requires k < SlotCount { (k % 6) * 4 }

  /** The `k`-th record in generation order. */
  function GeneratedRecord(today: int, draw: (nat, nat) -> HistoryDraw, k: nat): HistoricalRecord
    requires k < SlotCount
    requires forall day: nat, hour: nat :: ValidDraw(draw(day, hour))
  {
    HistoryRecord(today, SlotDay(k), SlotHour(k), draw(SlotDay(k), SlotHour(k)))
  }

  /** The loop's (day, hour) pair is slot `(6 - day) * 6 + hour / 4`. */
  lemma SlotOf(day: nat, hour: nat)
    requires day <= 6 && hour < 24 && hour % 4 == 0
    ensures (6 - day) * 6 + hour / 4 < SlotCount
    ensures SlotDay((6 - day) * 6 + hour / 4) == day
    ensures SlotHour((6 - day) * 6 + hour / 4) == hour
  {
    var k := (6 - day) * 6 + hour / 4;
    assert k / 6 == 6 - day && k % 6 == hour / 4;
  }

  /** The first `n` records in generation order. */
  function GeneratedPrefix(today: int, draw: (nat, nat) -> HistoryDraw, n: nat): (r: seq<HistoricalRecord>)
    requires n <= SlotCount
    requires forall day: nat, hour: nat :: ValidDraw(draw(day, hour))
    ensures |r| == n
    ensures forall k :: 0 <= k < n ==> r[k] == GeneratedRecord(today, draw, k)
  {
    seq(n, k requires 0 <= k < n => GeneratedRecord(today, draw, k))
  }

  /** The record the loop builds at (day, hour) extends the prefix by the
      record of its slot. */
  lemma GeneratedPrefixStep(today: int, draw: (nat, nat) -> HistoryDraw, day: nat, hour: nat)
    requires day <= 6 && hour < 24 && hour % 4 == 0
    requires forall day: nat, hour: nat :: ValidDraw(draw(day, hour))
    ensures (6 - day) * 6 + hour / 4 < SlotCount
    ensures GeneratedPrefix(today, draw, (6 - day) * 6 + hour / 4 + 1) ==
            GeneratedPrefix(today, draw, (6 - day) * 6 + hour / 4) + [HistoryRecord(today, day, hour, draw(day, hour))]
  {
    SlotOf(day, hour);
    var n := (6 - day) * 6 + hour / 4;
    assert GeneratedRecord(today, draw, n) == HistoryRecord(today, day, hour, draw(day, hour));
  }

  /** Seven days of six records each, then the last twenty of them
      (`slice(-20)`), in generation order. */
  method GenerateHistoricalData(today: int, draw: (nat, nat) -> HistoryDraw)
    returns (result: seq<HistoricalRecord>)
    requires forall day: nat, hour: nat :: ValidDraw(draw(day, hour))
    ensures |result| == 20
    ensures forall k :: 0 <= k < |result| ==> result[k] == GeneratedRecord(today, draw, SlotCount - 20 + k)
  {
    var records: seq<HistoricalRecord> := [];
    var day: int := 6;
    while day >= 0
      invariant -1 <= day <= 6
      invariant records == GeneratedPrefix(today, draw, (6 - day) * 6)
    {
      var hour: nat := 0;
      while hour < 24
        invariant hour <= 24 && hour % 4 == 0
        invariant records == GeneratedPrefix(today, draw, (6 - day) * 6 + hour / 4)
      {
        GeneratedPrefixStep(today, draw, day, hour);
        records := records + [HistoryRecord(today, day, hour, draw(day, hour))];
        hour := hour + 4;
      }
      day := day - 1;
    }
    result := JsSlice(records, -20, |records|);
    assert result == records[SlotCount - 20..];
  }

  /** Later slots have later timestamps, so the tail slice is also the
      chronologically latest part. */
  lemma {:induction false} GeneratedChronological(today: int, draw: (nat, nat) -> HistoryDraw, i: nat, j: nat)
    requires i < j < SlotCount
    requires forall day: nat, hour: nat :: ValidDraw(draw(day, hour))
    ensures GeneratedRecord(today, draw, i).timestamp < GeneratedRecord(today, draw, j).timestamp
  {
    var di, dj := SlotDay(i), SlotDay(j);
    var hi, hj := SlotHour(i), SlotHour(j);
    assert hi <= 20 && hj <= 20;
    if di == dj {
      assert i / 6 == j / 6;
      assert hi < hj;
    } else {
      assert dj < di;
      assert (today - di) * DayMs + DayMs <= (today - dj) * DayMs;
    }
  }

  /** Distinct slots give distinct record ids, whatever the field draws. */
  lemma GeneratedIdsDistinct(today: int, draw: (nat, nat) -> HistoryDraw, i: nat, j: nat)
    requires i < SlotCount && j < SlotCount && i != j
    requires forall day: nat, hour: nat :: ValidDraw(draw(day, hour))
    ensures GeneratedRecord(today, draw, i).id != GeneratedRecord(today, draw, j).id
  {
    var di, dj := SlotDay(i), SlotDay(j);
    var hi, hj := SlotHour(i), SlotHour(j);
    var fi, fj := FieldIndex(draw(di, hi).field), FieldIndex(draw(dj, hj).field);
    assert i == 6 * (i / 6) + i % 6 && j == 6 * (j / 6) + j % 6;
    assert di != dj || hi != hj;
    if RecordId(di, hi, fi) == RecordId(dj, hj, fj) {
      RecordIdInjective(di, hi, fi, dj, hj, fj);
      assert false;
    }
  }

  lemma RecordIdInjective(d1: nat, h1: nat, f1: nat, d2: nat, h2: nat, f2: nat)
    requires RecordId(d1, h1, f1) == RecordId(d2, h2, f2)
    ensures d1 == d2 && h1 == h2 && f1 == f2
  {
    var s1, s2 := NatToString(d1), NatToString(d2);
    var t1, t2 := NatToString(h1), NatToString(h2);
    var u1, u2 := NatToString(f1), NatToString(f2);
    var x1, x2 := s1 + ['-'] + (t1 + ['-'] + u1), s2 + ['-'] + (t2 + ['-'] + u2);
    RecordIdShape(d1, h1, f1);
    RecordIdShape(d2, h2, f2);
    DropPrefix("record-", x1, x2);
    SeparatedPrefix(s1, t1 + ['-'] + u1, s2, t2 + ['-'] + u2, '-');
    SeparatedPrefix(t1, u1, t2, u2, '-');
    NatToStringInjective(d1, d2);
    NatToStringInjective(h1, h2);
    NatToStringInjective(f1, f2);
  }

  /** The id regrouped as the prefix followed by its three numbers. */
  lemma RecordIdShape(d: nat, h: nat, f: nat)
    ensures RecordId(d, h, f) ==
            "record-" + (NatToString(d) + ['-'] + (NatToString(h) + ['-'] + NatToString(f)))
  {
  }

  lemma DropPrefix(p: string, x: string, y: string)
    requires p + x == p + y
    ensures x == y
  {
    assert x == (p + x)[|p|..];
    assert y == (p + y)[|p|..];
  }


  // ---------------------------------------------------------------------
  // getCurrentSensorValues

  const DefaultFieldId: string := "field-1"

  /** The fixed per-field baseline table; it does not follow the live window. */
  const BaseValues: map<string, SensorValues> := map[
    "field-1" := SensorValues(28.0, 32.0, 55.0, 72.0),
    "field-2" := SensorValues(45.0, 38.0, 48.0, 65.0),
    "field-3" := SensorValues(52.0, 29.0, 62.0, 88.0)
  ]

  /** The baseline of `fieldId`, or the first field's for any other id. */
  function GetCurrentSensorValues(fieldId: string): (r: SensorValues)
    ensures r in BaseValues.Values
    ensures fieldId in BaseValues ==> r == BaseValues[fieldId]
    ensures fieldId !in BaseValues ==> r == BaseValues[DefaultFieldId]
  {
    if fieldId in BaseValues then BaseValues[fieldId] else BaseValues[DefaultFieldId]
  }

  /** Every seed field has its own baseline, so the fallback is only ever
      taken for an id no seed field has. */
  lemma SeedFieldsHaveBaselines()
    ensures forall i :: 0 <= i < |Fields| ==> Fields[i].id in BaseValues
    ensures forall id :: id in BaseValues <==> exists i :: 0 <= i < |Fields| && Fields[i].id == id
  {
    assert Fields[0].id == "field-1" && Fields[1].id == "field-2" && Fields[2].id == "field-3";
  }
}
