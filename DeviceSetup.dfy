/** The IoT device setup page (src/pages/DeviceSetup.tsx): the patient's
    device list, extended by a scan, and updated by connecting a device and
    by syncing a reading from it. */
module DeviceSetup {
  import opened Js

  /** A row of `devices`; `lastSync` is a clock reading. */
  datatype Device = Device(
    id: string,
    deviceName: string,
    deviceType: string,
    isConnected: bool,
    lastSync: Option<int>)

  /** The `mockDevice` a scan inserts; the name and Bluetooth id are drawn
      at random by the page and arrive here as parameters. */
  datatype MockDevice = MockDevice(
    patientId: string,
    deviceName: string,
    deviceType: string,
    bluetoothId: string,
    isConnected: bool)

  /** The row the insert returns: the inserted fields and the new id. */
  function InsertedRow(m: MockDevice, id: string): (d: Device)
    ensures d.id == id && d.deviceName == m.deviceName && d.deviceType == m.deviceType
    ensures d.isConnected == m.isConnected && d.lastSync.None?
  {
    Device(id, m.deviceName, m.deviceType, m.isConnected, None)
  }

  /** The `connectDevice` map: the matching device becomes connected and
      synced at `now`. */
  function Connect(ds: seq<Device>, id: string, now: int): (r: seq<Device>)
    ensures |r| == |ds|
    ensures forall i :: 0 <= i < |ds| && ds[i].id == id ==>
      r[i] == ds[i].(isConnected := true, lastSync := Some(now))
    ensures forall i :: 0 <= i < |ds| && ds[i].id != id ==> r[i] == ds[i]
  {
    if ds == [] then []
    else [if ds[0].id == id then ds[0].(isConnected := true, lastSync := Some(now)) else ds[0]]
         + Connect(ds[1..], id, now)
  }

  /** The `syncDevice` map: only the matching device's `lastSync` changes. */
  function Sync(ds: seq<Device>, id: string, now: int): (r: seq<Device>)
    ensures |r| == |ds|
    ensures forall i :: 0 <= i < |ds| && ds[i].id == id ==> r[i] == ds[i].(lastSync := Some(now))
    ensures forall i :: 0 <= i < |ds| && ds[i].id != id ==> r[i] == ds[i]
  {
    if ds == [] then []
    else [if ds[0].id == id then ds[0].(lastSync := Some(now)) else ds[0]] + Sync(ds[1..], id, now)
  }

  /** A sync leaves every device's connection state alone. */
  lemma SyncKeepsConnections(ds: seq<Device>, id: string, now: int)
    ensures forall i :: 0 <= i < |ds| ==> Sync(ds, id, now)[i].isConnected == ds[i].isConnected
  {
  }

  /** Connecting twice at the same time is the same as connecting once. */
  lemma ConnectIdempotent(ds: seq<Device>, id: string, now: int)
    ensures Connect(Connect(ds, id, now), id, now) == Connect(ds, id, now)
  {
  }

  /** A sync after a connect at the same time changes nothing more. */
  lemma SyncAfterConnect(ds: seq<Device>, id: string, now: int)
    ensures Sync(Connect(ds, id, now), id, now) == Connect(ds, id, now)
  {
  }

  /** The page and its state. */
  class DevicePage {
    var patientId: Option<string>
    var devices: seq<Device>
    var scanning: bool
    var connecting: Option<string>

    constructor ()
      ensures patientId.None? && devices == [] && !scanning && connecting.None?
    {
      patientId := None;
      devices := [];
      scanning := false;
      connecting := None;
    }

    /** The patient lookup and `loadDevices`: `rows` is the query's data,
        `None` when it failed. */
    method LoadPatient(pid: string, rows: Option<seq<Device>>)
      modifies this`patientId, this`devices
      ensures patientId == Some(pid)
      ensures devices == (if rows.Some? then rows.value else old(devices))
    {
      patientId := Some(pid);
      if rows.Some? {
        devices := rows.value;
      }
    }

    /** `patientId` is truthy: loaded and not the empty string.  Each
        action returns at once otherwise. */
    function HasPatient(): (has: bool)
      reads this
      ensures has ==> patientId.Some?
      ensures patientId == Some("") ==> !has
      ensures patientId.Some? && patientId.value != "" ==> has
    {
      patientId.Some? && patientId.value != ""
    }

    /** `scanForDevices`: `insertedId` is the id of the inserted row, `None`
        when the insert failed.  Returns the row the page asked to insert. */
    method ScanForDevices(name: string, bluetoothId: string, insertedId: Option<string>)
      returns (request: Option<MockDevice>)
      modifies this`devices, this`scanning
      ensures !HasPatient() ==> request.None? && devices == old(devices) && scanning == old(scanning)
      ensures HasPatient() ==>
        request == Some(MockDevice(patientId.value, name, "thermometer", bluetoothId, false)) && !scanning
      ensures HasPatient() && insertedId.Some? ==>
        devices == old(devices) + [InsertedRow(request.value, insertedId.value)]
      ensures HasPatient() && insertedId.Some? ==>
        |devices| == |old(devices)| + 1 && !devices[|devices| - 1].isConnected
      ensures insertedId.None? ==> devices == old(devices)
    {
      if !HasPatient() {
        return None;
      }
      scanning := true;
      var mock := MockDevice(patientId.value, name, "thermometer", bluetoothId, false);
      request := Some(mock);
      if insertedId.Some? {
        devices := devices + [InsertedRow(mock, insertedId.value)];
      }
      scanning := false;
    }

    /** `connectDevice`: `ok` is whether the update succeeded. */
    method ConnectDevice(deviceId: string, ok: bool, now: int)
      modifies this`devices, this`connecting
      ensures !HasPatient() ==> devices == old(devices) && connecting == old(connecting)
      ensures HasPatient() ==> connecting.None?
      ensures devices == (if HasPatient() && ok then Connect(old(devices), deviceId, now) else old(devices))
    {
      if !HasPatient() {
        return;
      }
      connecting := Some(deviceId);
      if ok {
        devices := Connect(devices, deviceId, now);
      }
      connecting := None;
    }

    /** `syncDevice`: `ok` is whether inserting the reading succeeded. */
    method SyncDevice(deviceId: string, ok: bool, now: int)
      modifies this`devices
      ensures devices == (if HasPatient() && ok then Sync(old(devices), deviceId, now) else old(devices))
      ensures |devices| == |old(devices)|
      ensures forall i :: 0 <= i < |devices| ==> devices[i].isConnected == old(devices)[i].isConnected
    {
      if !HasPatient() {
        return;
      }
      if ok {
        devices := Sync(devices, deviceId, now);
      }
    }
  }
}
