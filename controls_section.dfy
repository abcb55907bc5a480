/**
 * The device-controls page's summary cards: the selected field's devices,
 * how many of them are on, and the field's area.
 */
module ControlsSection {
  import opened Seqs
  import opened Types
  import Store

  predicate IsOn(d: Device) { d.status }

  /** `devices.filter(d => d.status).length`. */
  function ActiveDevices(devices: seq<Device>): (r: nat)
    ensures r <= |devices|
    ensures r == 0 <==> forall j :: 0 <= j < |devices| ==> !devices[j].status
  {
    var on := Filter(devices, IsOn);
    assert forall j :: 0 <= j < |devices| && devices[j].status ==> |on| > 0 by {
      forall j | 0 <= j < |devices| && devices[j].status ensures |on| > 0 {
        assert devices[j] in on;
      }
    }
    assert |on| > 0 ==> exists j :: 0 <= j < |devices| && devices[j].status by {
      if |on| > 0 {
        assert on[0] in multiset(on);
        assert on[0] in devices;
      }
    }
    |on|
  }

  /** The selected field's device list: the devices of the first field with
      that id, or none when no field matches. */
  function SelectedDevices(fields: seq<Field>, selectedFieldId: string): (r: seq<Device>)
    ensures (forall i :: 0 <= i < |fields| ==> fields[i].id != selectedFieldId) ==> r == []
    ensures forall i :: (0 <= i < |fields| && fields[i].id == selectedFieldId &&
                         forall h :: 0 <= h < i ==> fields[h].id != selectedFieldId) ==>
              r == fields[i].devices
  {
    Store.DevicesByField(fields, selectedFieldId)
  }

  /** `selectedField?.area || 0`: the selected field's area, or 0 when no
      field is selected. */
  function Acres(fields: seq<Field>, selectedFieldId: string): (r: real)
    ensures (forall i :: 0 <= i < |fields| ==> fields[i].id != selectedFieldId) ==> r == 0.0
    ensures forall i :: (0 <= i < |fields| && fields[i].id == selectedFieldId &&
                         forall h :: 0 <= h < i ==> fields[h].id != selectedFieldId) ==>
              r == fields[i].area
  {
    match Store.FindField(fields, selectedFieldId)
    case Some(f) => f.area
    case None => 0.0
  }

  /** How many devices in the list carry the id. */
  function CountId(devices: seq<Device>, deviceId: string): nat
  {
    if devices == [] then 0
    else (if devices[0].id == deviceId then 1 else 0) + CountId(devices[1..], deviceId)
  }

  lemma {:induction false} CountIdFindsMatch(devices: seq<Device>, j: nat)
    requires j < |devices|
    ensures CountId(devices, devices[j].id) >= 1
  {
    if j > 0 {
      assert devices[1..][j - 1] == devices[j];
      CountIdFindsMatch(devices[1..], j - 1);
    }
  }

  /** Toggling one device of the selected field moves the active count by
      one: down if it was on, up if it was off. Devices with other ids keep
      their state. */
  lemma {:induction false} ToggleMovesActiveCount(devices: seq<Device>, j: nat, now: Timestamp)
    requires j < |devices| && CountId(devices, devices[j].id) == 1
    ensures ActiveDevices(Store.ToggleDevices(devices, devices[j].id, now)) ==
            if devices[j].status then ActiveDevices(devices) - 1 else ActiveDevices(devices) + 1
  {
    var id := devices[j].id;
    var tail := devices[1..];
    ToggleStep(devices, id, now);
    FilterLengthCons(devices, IsOn);
    assert CountId(devices, id) == (if devices[0].id == id then 1 else 0) + CountId(tail, id);
    if j == 0 {
      assert IsOn(Store.ToggleOne(devices[0], id, now)) == !devices[0].status;
      ToggleAbsentKeepsCount(tail, id, now);
    } else {
      assert tail[j - 1] == devices[j];
      CountIdFindsMatch(tail, j - 1);
      assert devices[0].id != id;
      assert Store.ToggleOne(devices[0], id, now) == devices[0];
      ToggleMovesActiveCount(tail, j - 1, now);
    }
  }

  /** Toggling an id that no device in the list carries keeps the count. */
  lemma {:induction false} ToggleAbsentKeepsCount(devices: seq<Device>, deviceId: string, now: Timestamp)
    requires CountId(devices, deviceId) == 0
    ensures ActiveDevices(Store.ToggleDevices(devices, deviceId, now)) == ActiveDevices(devices)
  {
    if devices != [] {
      ToggleStep(devices, deviceId, now);
      FilterLengthCons(devices, IsOn);
      ToggleAbsentKeepsCount(devices[1..], deviceId, now);
    }
  }

  /** One device at the head of the list. */
  lemma ToggleStep(devices: seq<Device>, deviceId: string, now: Timestamp)
    requires devices != []
    ensures ActiveDevices(Store.ToggleDevices(devices, deviceId, now)) ==
            (if IsOn(Store.ToggleOne(devices[0], deviceId, now)) then 1 else 0) +
            ActiveDevices(Store.ToggleDevices(devices[1..], deviceId, now))
  {
    var r := Store.ToggleDevices(devices, deviceId, now);
    assert r[1..] == Store.ToggleDevices(devices[1..], deviceId, now);
    FilterLengthCons(r, IsOn);
  }

  /** A toggle never changes how many devices the selected field has. */
  lemma ToggleKeepsDeviceTotal(fields: seq<Field>, selectedFieldId: string, deviceId: string,
                               now: Timestamp)
    ensures |SelectedDevices(Store.ToggleDeviceIn(fields, deviceId, now), selectedFieldId)| ==
            |SelectedDevices(fields, selectedFieldId)|
  {
    Store.DevicesByFieldAfterToggle(fields, selectedFieldId, deviceId, now);
  }
}
