/**
 * The dashboard's state store (lib/dashboard-context.tsx).
 *
 * Each store operation replaces one state slot through its setter; the
 * updater it passes to the setter is a pure function below, and the class
 * `DashboardStore` at the end holds the six slots and applies them.
 * Every operation is total: an id that matches nothing changes nothing.
 * The clock (`Date.now()`, `new Date()`) and `Math.random()` are parameters.
 */
module Store {
  import opened Seqs
  import opened Types
  import MockData

  // ---------------------------------------------------------------------
  // Fields and devices

  /** `fields.find(f => f.id === fieldId)`. */
  function FindField(fields: seq<Field>, fieldId: string): (r: Option<Field>)
    ensures r.None? <==> forall i :: 0 <= i < |fields| ==> fields[i].id != fieldId
    ensures r.Some? ==> exists i :: 0 <= i < |fields| && fields[i] == r.value && fields[i].id == fieldId
                                 && forall h :: 0 <= h < i ==> fields[h].id != fieldId
  {
    Find(fields, (f: Field) => f.id == fieldId)
  }

  /** `getDevicesByField`: the devices of the first field with that id,
      or no devices when no field has it. */
  function DevicesByField(fields: seq<Field>, fieldId: string): (r: seq<Device>)
    ensures (forall i :: 0 <= i < |fields| ==> fields[i].id != fieldId) ==> r == []
    ensures forall i :: (0 <= i < |fields| && fields[i].id == fieldId &&
                         forall h :: 0 <= h < i ==> fields[h].id != fieldId) ==> r == fields[i].devices
  {
    match FindField(fields, fieldId)
    case Some(f) => f.devices
    case None => []
  }

  /** The device a toggle leaves behind: flipped and stamped when its id
      matches, untouched otherwise. */
  function ToggleOne(d: Device, deviceId: string, now: Timestamp): Device
  {
    if d.id == deviceId then d.(status := !d.status, lastUpdated := now) else d
  }

  /** The inner `devices.map(...)` of `toggleDevice`. */
  function ToggleDevices(devices: seq<Device>, deviceId: string, now: Timestamp): (r: seq<Device>)
    ensures |r| == |devices|
    ensures forall j :: 0 <= j < |r| ==> r[j] == ToggleOne(devices[j], deviceId, now)
  {
    seq(|devices|, j requires 0 <= j < |devices| => ToggleOne(devices[j], deviceId, now))
  }

  /** The updater `toggleDevice` passes to `setFields`. */
  function ToggleDeviceIn(fields: seq<Field>, deviceId: string, now: Timestamp): (r: seq<Field>)
    ensures |r| == |fields|
    ensures forall i :: 0 <= i < |r| ==> r[i].(devices := fields[i].devices) == fields[i]
    ensures forall i :: 0 <= i < |r| ==> |r[i].devices| == |fields[i].devices|
    ensures forall i, j :: 0 <= i < |r| && 0 <= j < |r[i].devices| ==>
              var before, after := fields[i].devices[j], r[i].devices[j];
              && after.(status := before.status, lastUpdated := before.lastUpdated) == before
              && (after.status != before.status <==> before.id == deviceId)
              && (before.id == deviceId ==> after.lastUpdated == now)
              && (before.id != deviceId ==> after == before)
  {
    seq(|fields|, i requires 0 <= i < |fields| =>
      fields[i].(devices := ToggleDevices(fields[i].devices, deviceId, now)))
  }

  predicate HasDevice(fields: seq<Field>, deviceId: string)
  {
    exists i, j :: 0 <= i < |fields| && 0 <= j < |fields[i].devices| && fields[i].devices[j].id == deviceId
  }

  /** A device id that no field holds leaves the fields exactly as they were. */
  lemma ToggleUnknownDevice(fields: seq<Field>, deviceId: string, now: Timestamp)
    requires !HasDevice(fields, deviceId)
    ensures ToggleDeviceIn(fields, deviceId, now) == fields
  {
    var r := ToggleDeviceIn(fields, deviceId, now);
    forall i | 0 <= i < |fields| ensures r[i] == fields[i] {
      assert r[i].devices == fields[i].devices;
    }
  }

  /** Toggling the same device twice restores every status; only the
      matched devices keep the second timestamp. */
  lemma ToggleDeviceTwice(fields: seq<Field>, deviceId: string, t1: Timestamp, t2: Timestamp)
    ensures var r := ToggleDeviceIn(ToggleDeviceIn(fields, deviceId, t1), deviceId, t2);
            |r| == |fields| &&
            forall i :: 0 <= i < |r| ==>
              r[i].(devices := fields[i].devices) == fields[i] &&
              |r[i].devices| == |fields[i].devices| &&
              forall j :: 0 <= j < |r[i].devices| ==>
                r[i].devices[j] == (if fields[i].devices[j].id == deviceId
                                    then fields[i].devices[j].(lastUpdated := t2)
                                    else fields[i].devices[j])
  {
  }

  // ---------------------------------------------------------------------
  // Referential integrity of fields, devices and rules

  /** Every device records the field that holds it. */
  predicate DevicesBelong(fields: seq<Field>)
  {
    forall i, j :: 0 <= i < |fields| && 0 <= j < |fields[i].devices| ==>
      fields[i].devices[j].fieldId == fields[i].id
  }

  predicate FieldIdsUnique(fields: seq<Field>)
  {
    forall i, k :: 0 <= i < k < |fields| ==> fields[i].id != fields[k].id
  }

  /** No two devices, in the same field or in different ones, share an id. */
  predicate DeviceIdsUnique(fields: seq<Field>)
  {
    && (forall i, j, k :: 0 <= i < |fields| && 0 <= j < k < |fields[i].devices| ==>
          fields[i].devices[j].id != fields[i].devices[k].id)
    && (forall i, m, j, k :: 0 <= i < m < |fields| && 0 <= j < |fields[i].devices| && 0 <= k < |fields[m].devices| ==>
          fields[i].devices[j].id != fields[m].devices[k].id)
  }

  /** The rule's action names a device of the rule's field, by id and by name. */
  predicate RuleRefersToDevice(fields: seq<Field>, rule: AutomationRule)
  {
    exists j :: 0 <= j < |DevicesByField(fields, rule.fieldId)| &&
      DevicesByField(fields, rule.fieldId)[j].id == rule.action.deviceId &&
      DevicesByField(fields, rule.fieldId)[j].name == rule.action.deviceName
  }

  predicate RulesReferToDevices(fields: seq<Field>, rules: seq<AutomationRule>)
  {
    forall k :: 0 <= k < |rules| ==> RuleRefersToDevice(fields, rules[k])
  }

  predicate Integrity(fields: seq<Field>, rules: seq<AutomationRule>)
  {
    DevicesBelong(fields) && FieldIdsUnique(fields) && DeviceIdsUnique(fields) &&
    RulesReferToDevices(fields, rules)
  }

  /** In the seed tables every device records its own field, field ids
      and device ids are unique, and every rule names a device of its field
      by its id and its name. */
  lemma SeedIntegrity()
    ensures Integrity(MockData.Fields, MockData.InitialAutomationRules)
  {
    SeedDevicesBelong();
    SeedIdsUnique();
    SeedRulesReferToDevices();
  }

  lemma SeedDevicesBelong()
    ensures DevicesBelong(MockData.Fields)
  {
    var fs := MockData.Fields;
    assert forall j :: 0 <= j < |fs[0].devices| ==> fs[0].devices[j].fieldId == "field-1";
    assert forall j :: 0 <= j < |fs[1].devices| ==> fs[1].devices[j].fieldId == "field-2";
    assert forall j :: 0 <= j < |fs[2].devices| ==> fs[2].devices[j].fieldId == "field-3";
  }

  lemma SeedIdsUnique()
    ensures FieldIdsUnique(MockData.Fields) && DeviceIdsUnique(MockData.Fields)
  {
    var fs := MockData.Fields;
    forall i, j, k | 0 <= i < |fs| && 0 <= j < k < |fs[i].devices|
      ensures fs[i].devices[j].id != fs[i].devices[k].id
    {
      SeedKeyOf(i, j);
      SeedKeyOf(i, k);
    }
    forall i, m, j, k | 0 <= i < m < |fs| && 0 <= j < |fs[i].devices| && 0 <= k < |fs[m].devices|
      ensures fs[i].devices[j].id != fs[m].devices[k].id
    {
      SeedKeyOf(i, j);
      SeedKeyOf(m, k);
    }
  }

  /** The first and last characters of the id of the seed device at field
      `i`, position `j`; no two seed devices share them. */
  function SeedKey(i: nat, j: nat): (char, char)
  {
    match (i, j)
    case (0, 0) => ('p', '1')
    case (0, 1) => ('m', '1')
    case (0, 2) => ('v', '1')
    case (1, 0) => ('p', '2')
    case (1, 1) => ('s', '1')
    case (2, 0) => ('p', '3')
    case (2, 1) => ('m', '2')
    case _ => (' ', ' ')
  }

  lemma SeedKeyOf(i: nat, j: nat)
    requires i < |MockData.Fields| && j < |MockData.Fields[i].devices|
    ensures var id := MockData.Fields[i].devices[j].id;
            |id| > 0 && (id[0], id[|id| - 1]) == SeedKey(i, j)
  {
    var id := MockData.Fields[i].devices[j].id;
    if i == 0 {
      if j == 0 { assert id == "pump-1"; }
      else if j == 1 { assert id == "motor-1"; }
      else { assert id == "valve-1"; }
    } else if i == 1 {
      if j == 0 { assert id == "pump-2"; }
      else { assert id == "sprinkler-1"; }
    } else {
      if j == 0 { assert id == "pump-3"; }
      else { assert id == "motor-2"; }
    }
  }

  lemma SeedRulesReferToDevices()
    ensures RulesReferToDevices(MockData.Fields, MockData.InitialAutomationRules)
  {
    var rs := MockData.InitialAutomationRules;
    forall k | 0 <= k < |rs|
      ensures RuleRefersToDevice(MockData.Fields, rs[k])
    {
      if k == 0 {
        SeedRuleRefersToDevice(0, 0, 0);
      } else if k == 1 {
        SeedRuleRefersToDevice(1, 1, 1);
      } else {
        SeedRuleRefersToDevice(2, 1, 0);
      }
    }
  }

  /** Seed rule `k` drives device `j` of seed field `i`, its own field. */
  lemma SeedRuleRefersToDevice(k: nat, i: nat, j: nat)
    requires (k, i, j) in [(0, 0, 0), (1, 1, 1), (2, 1, 0)]
    ensures k < |MockData.InitialAutomationRules|
    ensures RuleRefersToDevice(MockData.Fields, MockData.InitialAutomationRules[k])
  {
    var fs := MockData.Fields;
    var rule := MockData.InitialAutomationRules[k];
    assert rule.fieldId == fs[i].id;
    SeedFieldFound(i);
    var ds := DevicesByField(fs, rule.fieldId);
    assert ds[j].id == rule.action.deviceId && ds[j].name == rule.action.deviceName;
  }

  lemma SeedFieldFound(i: nat)
    requires i < |MockData.Fields|
    ensures DevicesByField(MockData.Fields, MockData.Fields[i].id) == MockData.Fields[i].devices
  {
    var fs := MockData.Fields;
    assert fs[0].id == "field-1" && fs[1].id == "field-2" && fs[2].id == "field-3";
  }

  /** Toggling keeps field ids, so the same field is found and its devices
      are the toggled ones. */
  lemma DevicesByFieldAfterToggle(fields: seq<Field>, fieldId: string, deviceId: string, now: Timestamp)
    ensures DevicesByField(ToggleDeviceIn(fields, deviceId, now), fieldId)
         == ToggleDevices(DevicesByField(fields, fieldId), deviceId, now)
  {
    var r := ToggleDeviceIn(fields, deviceId, now);
    assert forall i :: 0 <= i < |r| ==> r[i].id == fields[i].id;
    var found := FindField(fields, fieldId);
    if found.Some? {
      var i :| 0 <= i < |fields| && fields[i] == found.value && fields[i].id == fieldId
               && forall h :: 0 <= h < i ==> fields[h].id != fieldId;
      assert DevicesByField(fields, fieldId) == fields[i].devices;
      assert r[i].devices == ToggleDevices(fields[i].devices, deviceId, now);
      assert DevicesByField(r, fieldId) == r[i].devices;
    }
  }

  /** Toggling a device changes no id, name or field, so it keeps the
      fields and rules sound. */
  lemma ToggleDeviceKeepsIntegrity(fields: seq<Field>, rules: seq<AutomationRule>, deviceId: string, now: Timestamp)
    requires Integrity(fields, rules)
    ensures Integrity(ToggleDeviceIn(fields, deviceId, now), rules)
  {
    var r := ToggleDeviceIn(fields, deviceId, now);
    assert forall i, j :: 0 <= i < |r| && 0 <= j < |r[i].devices| ==>
      r[i].devices[j].id == fields[i].devices[j].id &&
      r[i].devices[j].fieldId == fields[i].devices[j].fieldId;
    forall k | 0 <= k < |rules| ensures RuleRefersToDevice(r, rules[k]) {
      var rule := rules[k];
      DevicesByFieldAfterToggle(fields, rule.fieldId, deviceId, now);
      var ds := DevicesByField(fields, rule.fieldId);
      var j :| 0 <= j < |ds| && ds[j].id == rule.action.deviceId && ds[j].name == rule.action.deviceName;
      assert DevicesByField(r, rule.fieldId)[j] == ToggleOne(ds[j], deviceId, now);
    }
  }

  // ---------------------------------------------------------------------
  // Alerts

  /** The updater `acknowledgeAlert` passes to `setAlerts`. */
  function AcknowledgeAlertIn(alerts: seq<Alert>, alertId: string): (r: seq<Alert>)
    ensures |r| == |alerts|
    ensures forall i :: 0 <= i < |r| ==> r[i].(acknowledged := alerts[i].acknowledged) == alerts[i]
    ensures forall i :: 0 <= i < |r| ==>
              r[i].acknowledged == (alerts[i].acknowledged || alerts[i].id == alertId)
  {
    seq(|alerts|, i requires 0 <= i < |alerts| =>
      if alerts[i].id == alertId then alerts[i].(acknowledged := true) else alerts[i])
  }

  /** Acknowledging twice is acknowledging once. */
  lemma AcknowledgeIdempotent(alerts: seq<Alert>, alertId: string)
    ensures AcknowledgeAlertIn(AcknowledgeAlertIn(alerts, alertId), alertId) == AcknowledgeAlertIn(alerts, alertId)
  {
  }

  /** An id that no alert has leaves the alerts unchanged. */
  lemma AcknowledgeUnknownAlert(alerts: seq<Alert>, alertId: string)
    requires forall i :: 0 <= i < |alerts| ==> alerts[i].id != alertId
    ensures AcknowledgeAlertIn(alerts, alertId) == alerts
  {
  }

  /** `alert-${Date.now()}`. */
  function AlertId(now: nat): string { "alert-" + NatToString(now) }

  /** The updater `addAlert` passes to `setAlerts`: the new alert, with a
      time-based id in place of whatever id it carried, goes first. */
  function AddAlertTo(alerts: seq<Alert>, alert: Alert, now: nat): (r: seq<Alert>)
    ensures |r| == |alerts| + 1
    ensures r[0].id == AlertId(now) && r[0].(id := alert.id) == alert
    ensures r[1..] == alerts
  {
    [alert.(id := AlertId(now))] + alerts
  }

  // ---------------------------------------------------------------------
  // Automation rules

  /** The updater `toggleRule` passes to `setAutomationRules`. */
  function ToggleRuleIn(rules: seq<AutomationRule>, ruleId: string): (r: seq<AutomationRule>)
    ensures |r| == |rules|
    ensures forall i :: 0 <= i < |r| ==> r[i].(enabled := rules[i].enabled) == rules[i]
    ensures forall i :: 0 <= i < |r| ==> (r[i].enabled != rules[i].enabled <==> rules[i].id == ruleId)
  {
    seq(|rules|, i requires 0 <= i < |rules| =>
      if rules[i].id == ruleId then rules[i].(enabled := !rules[i].enabled) else rules[i])
  }

  /** Toggling a rule twice restores the list. */
  lemma ToggleRuleTwice(rules: seq<AutomationRule>, ruleId: string)
    ensures ToggleRuleIn(ToggleRuleIn(rules, ruleId), ruleId) == rules
  {
  }

  /** `rule-${Date.now()}`. */
  function RuleId(now: nat): string { "rule-" + NatToString(now) }

  /** The updater `addRule` passes to `setAutomationRules`: the old rules
      are an unchanged prefix and the new rule, with a time-based id, is last. */
  function AddRuleTo(rules: seq<AutomationRule>, rule: AutomationRule, now: nat): (r: seq<AutomationRule>)
    ensures |r| == |rules| + 1
    ensures r[..|rules|] == rules
    ensures r[|rules|].id == RuleId(now) && r[|rules|].(id := rule.id) == rule
  {
    rules + [rule.(id := RuleId(now))]
  }

  /** The updater `deleteRule` passes to `setAutomationRules`. */
  function DeleteRuleFrom(rules: seq<AutomationRule>, ruleId: string): (r: seq<AutomationRule>)
    ensures forall i :: 0 <= i < |r| ==> r[i].id != ruleId
    ensures forall i :: 0 <= i < |rules| && rules[i].id != ruleId ==> rules[i] in r
    ensures multiset(r) <= multiset(rules)
  {
    Filter(rules, (rule: AutomationRule) => rule.id != ruleId)
  }

  /** Deleting keeps the order of the remaining rules: it distributes over
      concatenation. */
  lemma DeleteRuleKeepsOrder(a: seq<AutomationRule>, b: seq<AutomationRule>, ruleId: string)
    ensures DeleteRuleFrom(a + b, ruleId) == DeleteRuleFrom(a, ruleId) + DeleteRuleFrom(b, ruleId)
  {
    FilterConcat(a, b, (rule: AutomationRule) => rule.id != ruleId);
  }

  /** Deleting an id that no rule has is a no-op, and only then. */
  lemma DeleteUnknownRule(rules: seq<AutomationRule>, ruleId: string)
    ensures DeleteRuleFrom(rules, ruleId) == rules <==> forall i :: 0 <= i < |rules| ==> rules[i].id != ruleId
  {
    FilterKeepsAll(rules, (rule: AutomationRule) => rule.id != ruleId);
  }

  /** Toggling a rule changes neither its field nor its action. */
  lemma ToggleRuleKeepsIntegrity(fields: seq<Field>, rules: seq<AutomationRule>, ruleId: string)
    requires Integrity(fields, rules)
    ensures Integrity(fields, ToggleRuleIn(rules, ruleId))
  {
    var t := ToggleRuleIn(rules, ruleId);
    forall k | 0 <= k < |t| ensures RuleRefersToDevice(fields, t[k]) {
      assert t[k].fieldId == rules[k].fieldId && t[k].action == rules[k].action;
      assert RuleRefersToDevice(fields, rules[k]);
    }
  }

  /** Deleting only removes rules. */
  lemma DeleteRuleKeepsIntegrity(fields: seq<Field>, rules: seq<AutomationRule>, ruleId: string)
    requires Integrity(fields, rules)
    ensures Integrity(fields, DeleteRuleFrom(rules, ruleId))
  {
    var d := DeleteRuleFrom(rules, ruleId);
    forall k | 0 <= k < |d| ensures RuleRefersToDevice(fields, d[k]) {
      assert d[k] in multiset(rules);
    }
  }

  /** Adding keeps the rules sound when the added rule itself points at a
      device of its field; the store does not check that. */
  lemma AddRuleKeepsIntegrity(fields: seq<Field>, rules: seq<AutomationRule>, rule: AutomationRule, now: nat)
    requires Integrity(fields, rules)
    requires RuleRefersToDevice(fields, rule)
    ensures Integrity(fields, AddRuleTo(rules, rule, now))
  {
    var a := AddRuleTo(rules, rule, now);
    forall k | 0 <= k < |a| ensures RuleRefersToDevice(fields, a[k]) {
      if k < |rules| {
        assert a[k] == rules[k];
      } else {
        assert a[k].fieldId == rule.fieldId && a[k].action == rule.action;
      }
    }
  }

  // ---------------------------------------------------------------------
  // The rolling sensor window

  /** The four `Math.random()` draws one tick consumes. */
  datatype TickDraws = TickDraws(moisture: real, temperature: real, humidity: real, water: real)

  function MinR(a: real, b: real): real { if a <= b then a else b }

  function MaxR(a: real, b: real): real { if a >= b then a else b }

  /** `Math.max(lo, Math.min(hi, x))`. */
  function Clamp(lo: real, hi: real, x: real): (r: real)
    requires lo <= hi
    ensures lo <= r <= hi
    ensures lo <= x <= hi ==> r == x
  {
    MaxR(lo, MinR(hi, x))
  }

  /** One random-walk step: a move of `(draw - 0.5) * scale`, clamped. */
  function Step(last: real, draw: real, scale: real, lo: real, hi: real): real
    requires lo <= hi
  {
    Clamp(lo, hi, last + (draw - 0.5) * scale)
  }

  lemma ProductNonNegative(a: real, b: real)
    requires a >= 0.0 && b >= 0.0
    ensures a * b >= 0.0
  {
  }

  /** From a value already in range, a step with a draw in [0, 1) moves by
      at most half the scale. */
  lemma StepIsSmall(last: real, draw: real, scale: real, lo: real, hi: real)
    requires lo <= last <= hi && 0.0 <= draw < 1.0 && scale >= 0.0
    ensures -scale / 2.0 <= Step(last, draw, scale, lo, hi) - last <= scale / 2.0
  {
    var m := draw - 0.5;
    ProductNonNegative(m + 0.5, scale);
    ProductNonNegative(0.5 - m, scale);
    assert (m + 0.5) * scale == m * scale + 0.5 * scale;
    assert (0.5 - m) * scale == 0.5 * scale - m * scale;
    var x := last + m * scale;
    assert last - scale / 2.0 <= x <= last + scale / 2.0;
    var r := Clamp(lo, hi, x);
    if x < lo {
      assert r == lo;
    } else if x > hi {
      assert r == hi;
    } else {
      assert r == x;
    }
  }

  /** The sample a tick appends after `last`. */
  function NextSample(last: SensorData, d: TickDraws, now: Timestamp): (s: SensorData)
    ensures s.timestamp == now
    ensures 10.0 <= s.soilMoisture <= 90.0 && 15.0 <= s.temperature <= 45.0
    ensures 20.0 <= s.humidity <= 90.0 && 10.0 <= s.waterLevel <= 100.0
  {
    SensorData(now,
      Step(last.soilMoisture, d.moisture, 5.0, 10.0, 90.0),
      Step(last.temperature, d.temperature, 2.0, 15.0, 45.0),
      Step(last.humidity, d.humidity, 4.0, 20.0, 90.0),
      Step(last.waterLevel, d.water, 3.0, 10.0, 100.0))
  }

  /** The updater the interval passes to `setSensorData`: drop the oldest
      sample and append a successor of the newest. An empty window stays
      empty. (The source's second guard, on a missing last sample, cannot
      fire once the window is non-empty.) */
  function TickWindow(window: seq<SensorData>, d: TickDraws, now: Timestamp): (r: seq<SensorData>)
    ensures window == [] ==> r == []
    ensures window != [] ==> |r| == |window|
    ensures window != [] ==> r[..|r| - 1] == window[1..]
    ensures window != [] ==> r[|r| - 1] == NextSample(window[|window| - 1], d, now)
  {
    if |window| == 0 then window
    else window[1..] + [NextSample(window[|window| - 1], d, now)]
  }

  /** The window after one tick per draw, in order. */
  function Ticks(window: seq<SensorData>, ds: seq<TickDraws>, nows: seq<Timestamp>): seq<SensorData>
    requires |ds| == |nows|
    decreases |ds|
  {
    if ds == [] then window
    else Ticks(TickWindow(window, ds[0], nows[0]), ds[1..], nows[1..])
  }

  /** However many ticks run, the window keeps its length. */
  lemma {:induction false} TicksKeepLength(window: seq<SensorData>, ds: seq<TickDraws>, nows: seq<Timestamp>)
    requires |ds| == |nows|
    ensures |Ticks(window, ds, nows)| == |window|
    decreases |ds|
  {
    if ds != [] {
      TicksKeepLength(TickWindow(window, ds[0], nows[0]), ds[1..], nows[1..]);
    }
  }

  predicate Ascending(window: seq<SensorData>)
  {
    forall i, j :: 0 <= i < j < |window| ==> window[i].timestamp < window[j].timestamp
  }

  /** A tick at a time later than the newest sample keeps the window in
      ascending time order. */
  lemma TickKeepsAscending(window: seq<SensorData>, d: TickDraws, now: Timestamp)
    requires Ascending(window)
    requires window != [] ==> window[|window| - 1].timestamp < now
    ensures Ascending(TickWindow(window, d, now))
  {
    var r := TickWindow(window, d, now);
    if window != [] {
      forall i, j | 0 <= i < j < |r| ensures r[i].timestamp < r[j].timestamp {
        assert r[i] == window[i + 1];
        if j < |r| - 1 {
          assert r[j] == window[j + 1];
        }
      }
    }
  }

  // ---------------------------------------------------------------------
  // The store

  /** A snapshot of the six state slots. */
  datatype StoreState = StoreState(
    fields: seq<Field>,
    selectedFieldId: string,
    sensorData: seq<SensorData>,
    alerts: seq<Alert>,
    automationRules: seq<AutomationRule>,
    isDarkMode: bool)

  class DashboardStore {
    var fields: seq<Field>
    var selectedFieldId: string
    var sensorData: seq<SensorData>
    var alerts: seq<Alert>
    var automationRules: seq<AutomationRule>
    var isDarkMode: bool

    function State(): StoreState
      reads this
    {
      StoreState(fields, selectedFieldId, sensorData, alerts, automationRules, isDarkMode)
    }

    /** The provider's initial state: the seed tables, the first field
        selected, an empty window until it is filled, light theme. */
    constructor ()
      ensures State() == StoreState(MockData.Fields, MockData.DefaultFieldId, [],
                                    MockData.InitialAlerts, MockData.InitialAutomationRules, false)
      ensures Integrity(fields, automationRules)
    {
      fields := MockData.Fields;
      selectedFieldId := MockData.DefaultFieldId;
      sensorData := [];
      alerts := MockData.InitialAlerts;
      automationRules := MockData.InitialAutomationRules;
      isDarkMode := false;
      SeedIntegrity();
    }

    /** `selectedField`: the first field whose id is the selected one. */
    function SelectedField(): (r: Option<Field>)
      reads this
      ensures r.None? <==> forall i :: 0 <= i < |fields| ==> fields[i].id != selectedFieldId
      ensures r.Some? ==> r.value in fields && r.value.id == selectedFieldId
      ensures r.Some? ==> r.value.devices == DevicesByField(fields, selectedFieldId)
    {
      FindField(fields, selectedFieldId)
    }

    /** `currentSensorValues`: the baseline of the selected field. */
    function CurrentSensorValues(): (r: SensorValues)
      reads this
      ensures r in MockData.BaseValues.Values
      ensures selectedFieldId in MockData.BaseValues ==> r == MockData.BaseValues[selectedFieldId]
      ensures selectedFieldId !in MockData.BaseValues ==> r == MockData.BaseValues[MockData.DefaultFieldId]
    {
      MockData.GetCurrentSensorValues(selectedFieldId)
    }

    /** The mount effect: fill the window with 24 hours of hourly samples. */
    method InitSensorData(now: Timestamp, reading: nat -> SensorValues)
      modifies this
      ensures |sensorData| == 25 && sensorData[24].timestamp == now
      ensures forall k :: 0 <= k < 25 ==> sensorData[k] == MockData.SampleAt(now, 24 - k, reading)
      ensures forall k :: 0 <= k < 24 ==> sensorData[k + 1].timestamp == sensorData[k].timestamp + MockData.HourMs
      ensures Ascending(sensorData)
      ensures State() == old(State()).(sensorData := sensorData)
    {
      var data := MockData.GenerateSensorData(24, now, reading);
      sensorData := data;
      forall i, j | 0 <= i < j < |data| ensures data[i].timestamp < data[j].timestamp {
        assert data[i].timestamp == now - (24 - i) * MockData.HourMs;
        assert data[j].timestamp == now - (24 - j) * MockData.HourMs;
      }
    }

    /** `setSelectedFieldId`: no check that a field has the id. */
    method SetSelectedFieldId(fieldId: string)
      modifies this
      ensures State() == old(State()).(selectedFieldId := fieldId)
    {
      selectedFieldId := fieldId;
    }

    method ToggleDevice(deviceId: string, now: Timestamp)
      modifies this
      ensures State() == old(State()).(fields := ToggleDeviceIn(old(fields), deviceId, now))
      ensures old(Integrity(fields, automationRules)) ==> Integrity(fields, automationRules)
    {
      if Integrity(fields, automationRules) {
        ToggleDeviceKeepsIntegrity(fields, automationRules, deviceId, now);
      }
      fields := ToggleDeviceIn(fields, deviceId, now);
    }

    method AcknowledgeAlert(alertId: string)
      modifies this
      ensures State() == old(State()).(alerts := AcknowledgeAlertIn(old(alerts), alertId))
    {
      alerts := AcknowledgeAlertIn(alerts, alertId);
    }

    method AddAlert(alert: Alert, now: nat)
      modifies this
      ensures State() == old(State()).(alerts := AddAlertTo(old(alerts), alert, now))
    {
      alerts := AddAlertTo(alerts, alert, now);
    }

    method ToggleRule(ruleId: string)
      modifies this
      ensures State() == old(State()).(automationRules := ToggleRuleIn(old(automationRules), ruleId))
      ensures old(Integrity(fields, automationRules)) ==> Integrity(fields, automationRules)
    {
      if Integrity(fields, automationRules) {
        ToggleRuleKeepsIntegrity(fields, automationRules, ruleId);
      }
      automationRules := ToggleRuleIn(automationRules, ruleId);
    }

    method AddRule(rule: AutomationRule, now: nat)
      modifies this
      ensures State() == old(State()).(automationRules := AddRuleTo(old(automationRules), rule, now))
      ensures old(Integrity(fields, automationRules)) && RuleRefersToDevice(fields, rule) ==>
                Integrity(fields, automationRules)
    {
      if Integrity(fields, automationRules) && RuleRefersToDevice(fields, rule) {
        AddRuleKeepsIntegrity(fields, automationRules, rule, now);
      }
      automationRules := AddRuleTo(automationRules, rule, now);
    }

    method DeleteRule(ruleId: string)
      modifies this
      ensures State() == old(State()).(automationRules := DeleteRuleFrom(old(automationRules), ruleId))
      ensures old(Integrity(fields, automationRules)) ==> Integrity(fields, automationRules)
    {
      if Integrity(fields, automationRules) {
        DeleteRuleKeepsIntegrity(fields, automationRules, ruleId);
      }
      automationRules := DeleteRuleFrom(automationRules, ruleId);
    }

    method ToggleDarkMode()
      modifies this
      ensures State() == old(State()).(isDarkMode := !old(isDarkMode))
    {
      isDarkMode := !isDarkMode;
    }

    /** One firing of the five-second interval. */
    method Tick(d: TickDraws, now: Timestamp)
      modifies this
      ensures State() == old(State()).(sensorData := TickWindow(old(sensorData), d, now))
      ensures |sensorData| == old(|sensorData|)
    {
      sensorData := TickWindow(sensorData, d, now);
    }
  }
}
