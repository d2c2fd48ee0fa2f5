/**
 * The device registry: devices keyed by id, each shared by reference with the
 * energy manager's power workers, which switch them on and off in place.
 */
module DeviceService {
  import opened Results
  import opened Model
  import opened LoggerHelper

  /** What an active device draws; an inactive one draws nothing. */
  function Draw(d: Device): real
    reads d
  {
    if d.isActive then d.power else 0.0
  }

  /** The summed draw of a set of devices, taking them in an arbitrary order. */
  ghost function ActivePower(s: set<Device>): real
    reads s
    decreases s
  {
    if s == {} then 0.0
    else
      var d :| d in s;
      Draw(d) + ActivePower(s - {d})
  }

  /** The sum does not depend on the order: any device can be taken out first. */
  lemma {:induction false} ActivePowerRemove(s: set<Device>, d: Device)
    requires d in s
    ensures ActivePower(s) == Draw(d) + ActivePower(s - {d})
    decreases s
  {
    var e :| e in s && ActivePower(s) == Draw(e) + ActivePower(s - {e});
    if e != d {
      ActivePowerRemove(s - {e}, d);
      ActivePowerRemove(s - {d}, e);
      assert s - {e} - {d} == s - {d} - {e};
    }
  }

  /** With no active device the summed draw is zero. */
  lemma {:induction false} NoActiveNoDraw(s: set<Device>)
    requires forall d | d in s :: !d.isActive
    ensures ActivePower(s) == 0.0
    decreases s
  {
    if s != {} {
      var d :| d in s;
      ActivePowerRemove(s, d);
      NoActiveNoDraw(s - {d});
    }
  }

  /** With no negative power rating the summed draw is not negative. */
  lemma {:induction false} ActivePowerNonNegative(s: set<Device>)
    requires forall d | d in s :: d.power >= 0.0
    ensures ActivePower(s) >= 0.0
    decreases s
  {
    if s != {} {
      var d :| d in s;
      ActivePowerRemove(s, d);
      ActivePowerNonNegative(s - {d});
    }
  }

  class DeviceManager {
    var devices: map<string, Device>

    /** Every device is stored under its own id. */
    predicate Keyed()
      reads this
    {
      forall id | id in devices :: devices[id].id == id
    }

    constructor ()
      ensures devices == map[]
    {
      devices := map[];
    }

    /** `addDevice`: inserts, or overwrites the entry with the same id. */
    method AddDevice(device: Device) returns (events: seq<Event>)
      modifies this
      ensures devices == old(devices)[device.id := device]
      ensures events == [DeviceEvent("Added new device", device.name)]
      ensures old(Keyed()) ==> Keyed()
    {
      devices := devices[device.id := device];
      events := [DeviceEvent("Added new device", device.name)];
    }

    /** `removeDevice`: drops the entry; an unknown id changes nothing and logs nothing. */
    method RemoveDevice(deviceId: string) returns (events: seq<Event>)
      modifies this
      ensures devices == old(devices) - {deviceId}
      ensures deviceId in old(devices) ==> events == [DeviceEvent("Removed device", old(devices)[deviceId].name)]
      ensures deviceId !in old(devices) ==> events == []
      ensures old(Keyed()) ==> Keyed()
    {
      if deviceId in devices {
        events := [DeviceEvent("Removed device", devices[deviceId].name)];
      } else {
        events := [];
      }
      devices := devices - {deviceId};
    }

    /** `getDeviceById`: the stored device, or the exception for an unknown id. */
    function GetDeviceById(deviceId: string): (r: Result<Device>)
      reads this
      ensures r.Ok? <==> deviceId in devices
      ensures r.Ok? ==> r.value == devices[deviceId]
      ensures r.Err? ==> r.error == IllegalArgument("Device not found: " + deviceId)
      ensures Keyed() && r.Ok? ==> r.value.id == deviceId
    {
      if deviceId in devices then Ok(devices[deviceId])
      else Err(IllegalArgument("Device not found: " + deviceId))
    }

    /** `toggleDevice`: negates that device's flag and logs the new state. */
    method ToggleDevice(deviceId: string) returns (r: Result<seq<Event>>)
      modifies if deviceId in devices then {devices[deviceId]} else {}
      ensures deviceId !in devices ==> r == Err(IllegalArgument("Device not found: " + deviceId))
      ensures deviceId in devices ==>
                devices[deviceId].isActive == !old(devices[deviceId].isActive) &&
                r == Ok([DeviceEvent(if devices[deviceId].isActive then "Activated" else "Deactivated",
                                     devices[deviceId].name)])
    {
      var found := GetDeviceById(deviceId);
      if found.Err? {
        return Err(found.error);
      }
      var device := found.value;
      device.Toggle();
      r := Ok([DeviceEvent(if device.isActive then "Activated" else "Deactivated", device.name)]);
    }

    /** `getAllDevices`: every stored device, and with ids kept, only those, each found by its id. */
    function AllDevices(): (r: set<Device>)
      reads this
      ensures forall id | id in devices :: devices[id] in r
      ensures Keyed() ==> forall d | d in r :: d.id in devices && devices[d.id] == d
    {
      devices.Values
    }

    /** `getDevicesByState`: the stored devices whose flag equals `isActive`. */
    function DevicesByState(isActive: bool): (r: set<Device>)
      reads this, devices.Values
      ensures r <= AllDevices()
      ensures forall d | d in r :: d.isActive == isActive
      ensures forall d | d in AllDevices() && d.isActive == isActive :: d in r
    {
      set d | d in devices.Values && d.isActive == isActive
    }

    /** The active and the inactive devices split the registry. */
    lemma StatesPartition()
      ensures DevicesByState(true) + DevicesByState(false) == AllDevices()
      ensures DevicesByState(true) * DevicesByState(false) == {}
    {
    }

    /** `getTotalConsumption`: the power of the active devices, summed. */
    method GetTotalConsumption() returns (total: real)
      ensures total == ActivePower(AllDevices())
    {
      var rest := devices.Values;
      total := 0.0;
      while rest != {}
        invariant rest <= devices.Values
        invariant total + ActivePower(rest) == ActivePower(devices.Values)
        decreases rest
      {
        var d :| d in rest;
        ActivePowerRemove(rest, d);
        if d.isActive {
          total := total + d.power;
        }
        rest := rest - {d};
      }
    }

    /** The summed draw counts only the active devices. */
    lemma ConsumptionOfActive()
      ensures ActivePower(AllDevices()) == ActivePower(DevicesByState(true))
    {
      ActivePowerSplit(AllDevices(), DevicesByState(false));
      NoActiveNoDraw(DevicesByState(false));
      assert AllDevices() - DevicesByState(false) == DevicesByState(true);
    }

    /** `clearAllDevices`: empties the registry. */
    method ClearAllDevices()
      modifies this
      ensures devices == map[]
    {
      devices := map[];
    }
  }

  /** Summing a set is summing a subset and the rest. */
  lemma {:induction false} ActivePowerSplit(s: set<Device>, t: set<Device>)
    requires t <= s
    ensures ActivePower(s) == ActivePower(t) + ActivePower(s - t)
    decreases t
  {
    if t == {} {
      assert s - t == s;
    } else {
      var d :| d in t;
      ActivePowerRemove(s, d);
      ActivePowerRemove(t, d);
      ActivePowerSplit(s - {d}, t - {d});
      assert s - {d} - (t - {d}) == s - t;
    }
  }

  /** A caller toggling the same id twice gets the original flag back. */
  method ToggleDeviceTwice(m: DeviceManager, deviceId: string) returns (r: Result<seq<Event>>)
    requires deviceId in m.devices
    modifies m.devices[deviceId]
    ensures deviceId in m.devices && m.devices[deviceId].isActive == old(m.devices[deviceId].isActive)
  {
    var _ := m.ToggleDevice(deviceId);
    r := m.ToggleDevice(deviceId);
  }
}
