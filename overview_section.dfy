/**
 * The overview page's stat cards: a trend per sensor computed from the
 * last two samples of the live window, and a status per sensor computed
 * from the selected field's baseline reading.
 *
 * The percentage is kept as a real; its one-decimal text form is not
 * modelled.
 */
module OverviewSection {
  import opened Types
  import Store

  datatype Trend = Up | Down | Stable

  /** The trend's percentage: `NoChange` prints as "0%", `Percent(p)` as
      `p` with one decimal and a "%" sign. */
  datatype Change = NoChange | Percent(p: real)

  datatype TrendInfo = TrendInfo(trend: Trend, change: Change)

  function Abs(x: real): real { if x < 0.0 then -x else x }

  /** A move of more than half a unit either way is a trend. */
  function Classify(diff: real): (t: Trend)
    ensures t == Up <==> diff > 0.5
    ensures t == Down <==> diff < -0.5
    ensures t == Stable <==> -0.5 <= diff <= 0.5
  {
    if diff > 0.5 then Up else if diff < -0.5 then Down else Stable
  }

  /** `getTrend(key)`: stable and "0%" with fewer than two samples;
      otherwise the trend of the last sample against the one before, and
      the size of the move relative to the earlier value, or "0%" when
      that value is 0. */
  function GetTrend(samples: seq<SensorData>, key: SensorKind): (r: TrendInfo)
    ensures |samples| < 2 ==> r == TrendInfo(Stable, NoChange)
    ensures |samples| >= 2 ==>
              var current := Reading(samples[|samples| - 1], key);
              var previous := Reading(samples[|samples| - 2], key);
              && r.trend == Classify(current - previous)
              && (r.change == NoChange <==> previous == 0.0)
              && (previous != 0.0 ==> r.change == Percent(Abs((current - previous) / previous * 100.0)))
    ensures r.change.Percent? ==> r.change.p >= 0.0
  {
    if |samples| < 2 then TrendInfo(Stable, NoChange)
    else
      var current := Reading(samples[|samples| - 1], key);
      var previous := Reading(samples[|samples| - 2], key);
      var diff := current - previous;
      TrendInfo(Classify(diff), if previous != 0.0 then Percent(Abs(diff / previous * 100.0)) else NoChange)
  }

  /** Only the last two samples matter. */
  lemma TrendDependsOnLastTwo(a: seq<SensorData>, b: seq<SensorData>, key: SensorKind)
    requires |a| >= 2 && |b| >= 2
    requires a[|a| - 1] == b[|b| - 1] && a[|a| - 2] == b[|b| - 2]
    ensures GetTrend(a, key) == GetTrend(b, key)
  {
  }

  /** Swapping the last two samples turns an upward trend into a downward
      one and back, and keeps a stable one stable. */
  lemma TrendReverses(s: seq<SensorData>, x: SensorData, y: SensorData, key: SensorKind)
    ensures GetTrend(s + [x, y], key).trend == Up <==> GetTrend(s + [y, x], key).trend == Down
    ensures GetTrend(s + [x, y], key).trend == Stable <==> GetTrend(s + [y, x], key).trend == Stable
  {
    var a, b := s + [x, y], s + [y, x];
    assert a[|a| - 1] == y && a[|a| - 2] == x;
    assert b[|b| - 1] == x && b[|b| - 2] == y;
  }

  /** After a tick of a window of at least two samples, the trend compares
      the new sample with the sample that was last before the tick. */
  lemma TrendAfterTick(window: seq<SensorData>, d: Store.TickDraws, now: Timestamp, key: SensorKind)
    requires |window| >= 2
    ensures var last := window[|window| - 1];
            GetTrend(Store.TickWindow(window, d, now), key).trend ==
            Classify(Reading(Store.NextSample(last, d, now), key) - Reading(last, key))
  {
    var r := Store.TickWindow(window, d, now);
    assert r[|r| - 2] == r[..|r| - 1][|r| - 2] == window[1..][|window| - 2];
  }

  datatype Status = Normal | Warning | Critical

  /** How bad a status is: normal, then warning, then critical. */
  function Severity(s: Status): nat
  {
    match s
    case Normal => 0
    case Warning => 1
    case Critical => 2
  }

  /** `getMoistureStatus`. */
  function MoistureStatus(v: real): (r: Status)
    ensures r == Status.Critical <==> v < 25.0
    ensures r == Status.Warning <==> 25.0 <= v < 40.0
    ensures r == Normal <==> v >= 40.0
  {
    if v < 25.0 then Status.Critical else if v < 40.0 then Status.Warning else Normal
  }

  /** Drier soil never gets a better moisture status. */
  lemma MoistureStatusMonotone(v: real, w: real)
    requires v <= w
    ensures Severity(MoistureStatus(v)) >= Severity(MoistureStatus(w))
  {
  }

  /** `getTemperatureStatus`: normal on [15, 35], a warning just outside
      that band and critical beyond 10 and 38. */
  function TemperatureStatus(v: real): (r: Status)
    ensures r == Status.Critical <==> v > 38.0 || v < 10.0
    ensures r == Status.Warning <==> (35.0 < v <= 38.0) || (10.0 <= v < 15.0)
    ensures r == Normal <==> 15.0 <= v <= 35.0
  {
    if v > 38.0 || v < 10.0 then Status.Critical
    else if v > 35.0 || v < 15.0 then Status.Warning
    else Normal
  }

  /** Moving away from the normal band, in either direction, never gets a
      better temperature status. */
  lemma TemperatureStatusMonotone(v: real, w: real)
    ensures w <= v <= 15.0 ==> Severity(TemperatureStatus(w)) >= Severity(TemperatureStatus(v))
    ensures 35.0 <= v <= w ==> Severity(TemperatureStatus(w)) >= Severity(TemperatureStatus(v))
  {
  }

  /** The status each of the four stat cards shows for a reading. */
  function CardStatus(key: SensorKind, v: real): (r: Status)
    ensures key == SoilMoisture ==> r == MoistureStatus(v)
    ensures key == Temperature ==> r == TemperatureStatus(v)
    ensures key == Humidity ==> r == Normal
    ensures key == WaterLevel ==> r != Status.Critical && (r == Status.Warning <==> v < 30.0)
  {
    match key
    case SoilMoisture => MoistureStatus(v)
    case Temperature => TemperatureStatus(v)
    case Humidity => Normal
    case WaterLevel => if v < 30.0 then Status.Warning else Normal
  }
}
