/**
 * The automation-rules card and its "add rule" dialog.
 *
 * The dialog keeps one state variable per form input and, on submit,
 * either emits nothing or emits one new rule for the store's `addRule`.
 * The threshold input is text in the page; here it is `None` while the
 * input is empty and `Some(v)` once it holds the number `v` (the parsing
 * itself is not modelled). The emitted rule has no id yet: `addRule`
 * gives it one, so its `id` is left empty here.
 */
module AutomationRules {
  import opened Seqs
  import opened Types
  import Store
  import AutomationSection

  /** The rules the card lists: those of the selected field, in store
      order (the same selection as the automation page's cards). */
  function ListedRules(rules: seq<AutomationRule>, selectedFieldId: string): (r: seq<AutomationRule>)
    ensures forall i :: 0 <= i < |r| ==> r[i].fieldId == selectedFieldId
    ensures forall i :: 0 <= i < |rules| && rules[i].fieldId == selectedFieldId ==> rules[i] in r
  {
    AutomationSection.FieldRules(rules, selectedFieldId)
  }

  /** The guard at the top of `handleSubmit`, which also disables the
      "Create Rule" button: the name, the threshold and the device must all
      be filled in. */
  predicate Complete(name: string, value: Option<real>, deviceId: string)
  {
    name != "" && value.Some? && deviceId != ""
  }

  /** What `handleSubmit` hands to `onAdd`, if anything. */
  function BuildRule(fieldId: string, devices: seq<Device>, name: string, sensor: SensorKind,
                     op: Operator, value: Option<real>, deviceId: string, state: bool): (r: Option<AutomationRule>)
    ensures !Complete(name, value, deviceId) ==> r.None?
    ensures (forall j :: 0 <= j < |devices| ==> devices[j].id != deviceId) ==> r.None?
    ensures Complete(name, value, deviceId) && (exists j :: 0 <= j < |devices| && devices[j].id == deviceId) ==>
              r.Some?
    ensures r.Some? ==>
              && r.value.name == name && r.value.enabled
              && r.value.condition == Condition(sensor, op, value.value)
              && r.value.action.deviceId == deviceId && r.value.action.state == state
              && r.value.fieldId == fieldId && r.value.lastTriggered.None?
              && (exists j :: 0 <= j < |devices| && devices[j].id == deviceId &&
                              devices[j].name == r.value.action.deviceName &&
                              forall h :: 0 <= h < j ==> devices[h].id != deviceId)
  {
    if !Complete(name, value, deviceId) then None
    else
      match Find(devices, (d: Device) => d.id == deviceId)
      case None => None
      case Some(device) =>
        Some(AutomationRule("", name, true, Condition(sensor, op, value.value),
                            Action(deviceId, device.name, state), fieldId, None))
  }

  /** A rule built from the dialog of a field, offered that field's
      devices, names one of those devices by its id and its name, so adding
      it keeps the store's cross-references intact. */
  lemma BuiltRuleKeepsIntegrity(fields: seq<Field>, rules: seq<AutomationRule>, fieldId: string,
                                name: string, sensor: SensorKind, op: Operator, value: Option<real>,
                                deviceId: string, state: bool, now: nat)
    requires Store.Integrity(fields, rules)
    requires BuildRule(fieldId, Store.DevicesByField(fields, fieldId), name, sensor, op, value, deviceId, state).Some?
    ensures var rule := BuildRule(fieldId, Store.DevicesByField(fields, fieldId), name, sensor, op, value,
                                  deviceId, state).value;
            Store.Integrity(fields, Store.AddRuleTo(rules, rule, now))
  {
    var devices := Store.DevicesByField(fields, fieldId);
    var rule := BuildRule(fieldId, devices, name, sensor, op, value, deviceId, state).value;
    var j :| 0 <= j < |devices| && devices[j].id == deviceId && devices[j].name == rule.action.deviceName;
    assert Store.DevicesByField(fields, rule.fieldId)[j].id == rule.action.deviceId;
    Store.AddRuleKeepsIntegrity(fields, rules, rule, now);
  }

  /** The dialog's form state. */
  class RuleForm {
    const fieldId: string
    const devices: seq<Device>
    var name: string
    var sensor: SensorKind
    var op: Operator
    var value: Option<real>
    var deviceId: string
    var state: bool

    /** A fresh dialog: empty name, threshold and device; soil moisture,
        "is less than", and "Turn ON". */
    constructor(fieldId: string, devices: seq<Device>)
      ensures this.fieldId == fieldId && this.devices == devices
      ensures name == "" && sensor == SoilMoisture && op == LessThan
      ensures value == None && deviceId == "" && state
      ensures !CanSubmit() && Submitted().None?
    {
      this.fieldId := fieldId;
      this.devices := devices;
      name := "";
      sensor := SoilMoisture;
      op := LessThan;
      value := None;
      deviceId := "";
      state := true;
    }

    /** The "Create Rule" button is enabled. */
    predicate CanSubmit()
      reads this
    {
      Complete(name, value, deviceId)
    }

    /** The rule `handleSubmit` would emit now. */
    function Submitted(): (r: Option<AutomationRule>)
      reads this
      ensures !CanSubmit() ==> r.None?
      ensures r.Some? ==> r.value.fieldId == fieldId && r.value.enabled
    {
      BuildRule(fieldId, devices, name, sensor, op, value, deviceId, state)
    }

    method SetName(n: string)
      modifies this
      ensures name == n
      ensures sensor == old(sensor) && op == old(op) && value == old(value)
      ensures deviceId == old(deviceId) && state == old(state)
    {
      name := n;
    }

    method SetSensor(s: SensorKind)
      modifies this
      ensures sensor == s
      ensures name == old(name) && op == old(op) && value == old(value)
      ensures deviceId == old(deviceId) && state == old(state)
    {
      sensor := s;
    }

    method SetOperator(o: Operator)
      modifies this
      ensures op == o
      ensures name == old(name) && sensor == old(sensor) && value == old(value)
      ensures deviceId == old(deviceId) && state == old(state)
    {
      op := o;
    }

    method SetValue(v: Option<real>)
      modifies this
      ensures value == v
      ensures name == old(name) && sensor == old(sensor) && op == old(op)
      ensures deviceId == old(deviceId) && state == old(state)
    {
      value := v;
    }

    method SetDeviceId(d: string)
      modifies this
      ensures deviceId == d
      ensures name == old(name) && sensor == old(sensor) && op == old(op)
      ensures value == old(value) && state == old(state)
    {
      deviceId := d;
    }

    /** The ON/OFF select: `v === 'on'`. */
    method SetState(on: bool)
      modifies this
      ensures state == on
      ensures name == old(name) && sensor == old(sensor) && op == old(op)
      ensures value == old(value) && deviceId == old(deviceId)
    {
      state := on;
    }
  }
}
