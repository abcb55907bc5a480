/**
 * The alerts page's summary cards: unacknowledged critical, warning and
 * info alerts, and acknowledged alerts.
 */
module AlertsSection {
  import opened Seqs
  import opened Types
  import AlertsPanel

  predicate IsAcknowledged(a: Alert) { a.acknowledged }

  predicate IsActiveOfType(a: Alert, t: AlertType) { a.alertType == t && !a.acknowledged }

  /** The unacknowledged alerts of one type. */
  function ActiveOfType(alerts: seq<Alert>, t: AlertType): (r: nat)
    ensures r <= |alerts|
    ensures r <= AlertsPanel.ActiveCount(alerts)
    ensures r == 0 <==> forall i :: 0 <= i < |alerts| ==> alerts[i].alertType != t || alerts[i].acknowledged
  {
    var matching := Filter(alerts, (a: Alert) => IsActiveOfType(a, t));
    FilterStronger(alerts, (a: Alert) => IsActiveOfType(a, t), AlertsPanel.IsActive);
    assert forall i :: 0 <= i < |alerts| && alerts[i].alertType == t && !alerts[i].acknowledged ==>
             |matching| > 0 by {
      forall i | 0 <= i < |alerts| && alerts[i].alertType == t && !alerts[i].acknowledged
        ensures |matching| > 0
      {
        assert alerts[i] in matching;
      }
    }
    assert |matching| > 0 ==>
             exists i :: 0 <= i < |alerts| && alerts[i].alertType == t && !alerts[i].acknowledged by {
      if |matching| > 0 {
        assert matching[0] in multiset(matching);
        assert matching[0] in alerts;
      }
    }
    |matching|
  }

  /** The "Critical" card: never more than the badge, and 0 exactly when
      no critical alert is still unacknowledged. */
  function CriticalCount(alerts: seq<Alert>): (r: nat)
    ensures r <= AlertsPanel.ActiveCount(alerts)
    ensures r == 0 <==> forall i :: 0 <= i < |alerts| ==> alerts[i].alertType != Critical || alerts[i].acknowledged
  {
    ActiveOfType(alerts, Critical)
  }

  /** The "Warnings" card. */
  function WarningCount(alerts: seq<Alert>): (r: nat)
    ensures r <= AlertsPanel.ActiveCount(alerts)
    ensures r == 0 <==> forall i :: 0 <= i < |alerts| ==> alerts[i].alertType != Warning || alerts[i].acknowledged
  {
    ActiveOfType(alerts, Warning)
  }

  /** The "Info" card. */
  function InfoCount(alerts: seq<Alert>): (r: nat)
    ensures r <= AlertsPanel.ActiveCount(alerts)
    ensures r == 0 <==> forall i :: 0 <= i < |alerts| ==> alerts[i].alertType != Info || alerts[i].acknowledged
  {
    ActiveOfType(alerts, Info)
  }

  function AcknowledgedCount(alerts: seq<Alert>): (r: nat)
    ensures r + AlertsPanel.ActiveCount(alerts) == |alerts|
  {
    FilterPartition(alerts, IsAcknowledged, AlertsPanel.IsActive);
    |Filter(alerts, IsAcknowledged)|
  }

  /** Every alert has exactly one of the three types, so the active count
      splits into the three per-type counts. */
  lemma {:induction false} ActiveSplitsByType(alerts: seq<Alert>)
    ensures CriticalCount(alerts) + WarningCount(alerts) + InfoCount(alerts) ==
            AlertsPanel.ActiveCount(alerts)
  {
    if alerts != [] {
      ActiveSplitsByType(alerts[1..]);
      FilterLengthCons(alerts, (a: Alert) => IsActiveOfType(a, Critical));
      FilterLengthCons(alerts, (a: Alert) => IsActiveOfType(a, Warning));
      FilterLengthCons(alerts, (a: Alert) => IsActiveOfType(a, Info));
      FilterLengthCons(alerts, AlertsPanel.IsActive);
    }
  }

  /** The four summary cards account for every alert exactly once. */
  lemma CountsCoverAllAlerts(alerts: seq<Alert>)
    ensures CriticalCount(alerts) + WarningCount(alerts) + InfoCount(alerts) +
            AcknowledgedCount(alerts) == |alerts|
  {
    ActiveSplitsByType(alerts);
  }
}
