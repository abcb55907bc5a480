/**
 * The alert list views: the full panel, which shows every alert with the
 * unacknowledged ones first and the newest first within each group, and
 * the compact card, which shows the first three unacknowledged alerts.
 *
 * Sorting happens on a copy, so the store's list is an input here and is
 * never changed; the sort is modelled as an insertion sort whose result is
 * a permutation of its input ordered by the panel's comparator.
 */
module AlertsPanel {
  import opened Seqs
  import opened Types
  import Store
  import MockData

  /** An alert that still counts as active. */
  predicate IsActive(a: Alert) { !a.acknowledged }

  /** The comparator's order, read as "`a` may come before `b`": an
      unacknowledged alert goes before an acknowledged one, and alerts with
      the same flag go newest first. */
  predicate Precedes(a: Alert, b: Alert)
  {
    (!a.acknowledged && b.acknowledged) ||
    (a.acknowledged == b.acknowledged && a.timestamp >= b.timestamp)
  }

  predicate Sorted(s: seq<Alert>)
  {
    forall i, j :: 0 <= i < j < |s| ==> Precedes(s[i], s[j])
  }

  /** Puts `a` into an already sorted list ahead of the first alert it may
      precede. */
  function Insert(a: Alert, s: seq<Alert>): (r: seq<Alert>)
    requires Sorted(s)
    ensures multiset(r) == multiset(s) + multiset{a}
    ensures Sorted(r)
  {
    if s == [] then [a]
    else if Precedes(a, s[0]) then
      assert forall x :: x in s ==> Precedes(a, x) by {
        forall x | x in s ensures Precedes(a, x) {
          PrecedesTransitive(a, s[0], x);
        }
      }
      SortedCons(a, s);
      [a] + s
    else
      var rest := Insert(a, s[1..]);
      assert s == [s[0]] + s[1..];
      assert forall x :: x in rest ==> Precedes(s[0], x) by {
        forall x | x in rest ensures Precedes(s[0], x) {
          assert x in multiset(rest);
          if x != a {
            assert x in multiset(s[1..]);
          }
        }
      }
      SortedCons(s[0], rest);
      [s[0]] + rest
  }

  lemma PrecedesTransitive(a: Alert, b: Alert, c: Alert)
    requires Precedes(a, b) && Precedes(b, c)
    ensures Precedes(a, c)
  {
  }

  /** An alert that precedes every alert of a sorted list can go in front. */
  lemma SortedCons(x: Alert, t: seq<Alert>)
    requires Sorted(t)
    requires forall y :: y in t ==> Precedes(x, y)
    ensures Sorted([x] + t)
  {
    var r := [x] + t;
    forall i, j | 0 <= i < j < |r| ensures Precedes(r[i], r[j]) {
      assert r[j] == t[j - 1];
      if i > 0 {
        assert r[i] == t[i - 1];
      }
    }
  }

  /** `[...alerts].sort(comparator)`: the same alerts, unacknowledged ones
      first and newest first within each group. */
  function SortAlerts(alerts: seq<Alert>): (r: seq<Alert>)
    ensures multiset(r) == multiset(alerts)
    ensures |r| == |alerts|
    ensures forall i, j :: 0 <= i < j < |r| && r[i].acknowledged ==> r[j].acknowledged
    ensures forall i, j :: 0 <= i < j < |r| && r[i].acknowledged == r[j].acknowledged ==>
              r[i].timestamp >= r[j].timestamp
  {
    if alerts == [] then []
    else
      assert alerts == [alerts[0]] + alerts[1..];
      var r := Insert(alerts[0], SortAlerts(alerts[1..]));
      assert |r| == |multiset(r)|;
      r
  }

  /** The number the "Active" badge shows. */
  function ActiveCount(alerts: seq<Alert>): (r: nat)
    ensures r <= |alerts|
    ensures r == 0 <==> forall i :: 0 <= i < |alerts| ==> alerts[i].acknowledged
  {
    var active := Filter(alerts, IsActive);
    assert forall i :: 0 <= i < |alerts| && IsActive(alerts[i]) ==> |active| > 0 by {
      forall i | 0 <= i < |alerts| && IsActive(alerts[i]) ensures |active| > 0 {
        assert alerts[i] in active;
      }
    }
    assert |active| > 0 ==> exists i :: 0 <= i < |alerts| && IsActive(alerts[i]) by {
      if |active| > 0 {
        assert active[0] in multiset(active);
        assert active[0] in alerts;
      }
    }
    |active|
  }

  /** Adding an alert raises the badge by one exactly when the new alert
      is unacknowledged. */
  lemma AddAlertActiveCount(alerts: seq<Alert>, alert: Alert, now: nat)
    ensures ActiveCount(Store.AddAlertTo(alerts, alert, now)) ==
            ActiveCount(alerts) + (if alert.acknowledged then 0 else 1)
  {
    var r := Store.AddAlertTo(alerts, alert, now);
    assert r == [r[0]] + alerts;
    FilterConcat([r[0]], alerts, IsActive);
  }

  /** Acknowledging never raises the badge; when every alert with the id
      was still active, it lowers the badge by the number of such alerts
      (by one for a unique id). */
  lemma AcknowledgeActiveCount(alerts: seq<Alert>, alertId: string)
    ensures ActiveCount(Store.AcknowledgeAlertIn(alerts, alertId)) <= ActiveCount(alerts)
    ensures AllActiveWithId(alerts, alertId) ==>
            ActiveCount(Store.AcknowledgeAlertIn(alerts, alertId)) + MatchCount(alerts, alertId) ==
            ActiveCount(alerts)
  {
    AcknowledgeFilterCount(alerts, alertId);
  }

  /** All alerts carrying the id are still unacknowledged. */
  predicate AllActiveWithId(alerts: seq<Alert>, alertId: string)
  {
    forall i :: 0 <= i < |alerts| && alerts[i].id == alertId ==> !alerts[i].acknowledged
  }

  /** The same counts, stated on the filtered lists, by induction. */
  lemma {:induction false} AcknowledgeFilterCount(alerts: seq<Alert>, alertId: string)
    ensures |Filter(Store.AcknowledgeAlertIn(alerts, alertId), IsActive)| <= |Filter(alerts, IsActive)|
    ensures AllActiveWithId(alerts, alertId) ==>
            |Filter(Store.AcknowledgeAlertIn(alerts, alertId), IsActive)| + MatchCount(alerts, alertId) ==
            |Filter(alerts, IsActive)|
  {
    if alerts != [] {
      var tail := alerts[1..];
      AcknowledgeFilterCount(tail, alertId);
      AcknowledgeStep(alerts, alertId);
      FilterLengthCons(alerts, IsActive);
      if AllActiveWithId(alerts, alertId) {
        AllActiveTail(alerts, alertId);
      }
    }
  }

  /** One alert at the head of the list. */
  lemma AcknowledgeStep(alerts: seq<Alert>, alertId: string)
    requires alerts != []
    ensures |Filter(Store.AcknowledgeAlertIn(alerts, alertId), IsActive)| ==
            (if IsActive(alerts[0]) && alerts[0].id != alertId then 1 else 0) +
            |Filter(Store.AcknowledgeAlertIn(alerts[1..], alertId), IsActive)|
  {
    var r := Store.AcknowledgeAlertIn(alerts, alertId);
    assert r[1..] == Store.AcknowledgeAlertIn(alerts[1..], alertId);
    FilterLengthCons(r, IsActive);
  }

  lemma AllActiveTail(alerts: seq<Alert>, alertId: string)
    requires alerts != [] && AllActiveWithId(alerts, alertId)
    ensures AllActiveWithId(alerts[1..], alertId)
    ensures alerts[0].id == alertId ==> IsActive(alerts[0])
  {
    forall i | 0 <= i < |alerts[1..]| && alerts[1..][i].id == alertId
      ensures !alerts[1..][i].acknowledged
    {
      assert alerts[1..][i] == alerts[i + 1];
    }
  }



  /** How many alerts carry the id. */
  function MatchCount(alerts: seq<Alert>, alertId: string): (r: nat)
    ensures r <= |alerts|
  {
    if alerts == [] then 0
    else (if alerts[0].id == alertId then 1 else 0) + MatchCount(alerts[1..], alertId)
  }

  /** `fields.find(f => f.id === fieldId)?.name || fallback`: the first
      matching field's name, or the fallback when no field matches or the
      name is empty. */
  function FieldNameOr(fields: seq<Field>, fieldId: string, fallback: string): (r: string)
    ensures (forall i :: 0 <= i < |fields| ==> fields[i].id != fieldId) ==> r == fallback
    ensures forall i :: (0 <= i < |fields| && fields[i].id == fieldId &&
                         forall h :: 0 <= h < i ==> fields[h].id != fieldId) ==>
              r == (if fields[i].name == "" then fallback else fields[i].name)
    ensures fallback != "" ==> r != ""
  {
    match Store.FindField(fields, fieldId)
    case Some(f) => if f.name == "" then fallback else f.name
    case None => fallback
  }

  /** The panel's `getFieldName`: never blank, "Unknown Field" when no
      field has the id. */
  function PanelFieldName(fields: seq<Field>, fieldId: string): (r: string)
    ensures r != ""
    ensures (forall i :: 0 <= i < |fields| ==> fields[i].id != fieldId) ==> r == "Unknown Field"
  {
    FieldNameOr(fields, fieldId, "Unknown Field")
  }

  /** The compact card's `getFieldName`: never blank, "Unknown" when no
      field has the id. */
  function CompactFieldName(fields: seq<Field>, fieldId: string): (r: string)
    ensures r != ""
    ensures (forall i :: 0 <= i < |fields| ==> fields[i].id != fieldId) ==> r == "Unknown"
  {
    FieldNameOr(fields, fieldId, "Unknown")
  }

  /** The two views name a field the same way unless neither finds a
      non-empty name, and then they print their own fallback. */
  lemma FieldNamesAgree(fields: seq<Field>, fieldId: string)
    ensures PanelFieldName(fields, fieldId) == CompactFieldName(fields, fieldId) <==>
            (match Store.FindField(fields, fieldId)
             case Some(f) => f.name != ""
             case None => false)
  {
  }

  /** Every seed alert names a seed field, so neither view falls back. */
  lemma SeedAlertsNameTheirField(k: nat)
    requires k < |MockData.InitialAlerts|
    ensures PanelFieldName(MockData.Fields, MockData.InitialAlerts[k].fieldId) in
              ["North Field", "South Field", "East Field"]
  {
    var fs := MockData.Fields;
    assert fs[0].id == "field-1" && fs[1].id == "field-2" && fs[2].id == "field-3";
    assert fs[0].name == "North Field" && fs[1].name == "South Field" && fs[2].name == "East Field";
    var a := MockData.InitialAlerts[k];
    if k == 0 {
      assert a.fieldId == "field-1";
    } else if k == 1 {
      assert a.fieldId == "field-2";
    } else {
      assert a.fieldId == "field-3";
    }
  }

  /** `alerts.filter(a => !a.acknowledged).slice(0, 3)`: the compact card
      shows at most three alerts, the first unacknowledged ones in store
      order, and renders nothing when there are none. */
  function CompactAlerts(alerts: seq<Alert>): (r: seq<Alert>)
    ensures |r| == Min(3, ActiveCount(alerts))
    ensures r == Filter(alerts, IsActive)[..|r|]
    ensures forall i :: 0 <= i < |r| ==> !r[i].acknowledged
    ensures r == [] <==> forall i :: 0 <= i < |alerts| ==> alerts[i].acknowledged
  {
    JsSlice(Filter(alerts, IsActive), 0, 3)
  }
}
