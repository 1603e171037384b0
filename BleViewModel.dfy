/** BleViewModel.kt: the scan screen's state. The view model keeps the
    devices found while scanning in `scannedDevicesMap`, a Kotlin
    `LinkedHashMap` from address to device, adds the service UUIDs and
    whiteboard measures the service reports, and derives the UI's device
    list from the map. */
module ViewModel {
  import opened Wrappers

  /** `BleDeviceInfoTrans`; the Android `BluetoothDevice` it also holds is left out. */
  datatype BleDeviceInfoTrans = BleDeviceInfoTrans(
    name: string, address: string, bleServices: seq<string>, whiteboardServices: seq<string>)

  /** `BleDeviceInfo`, a row of the UI's device list. */
  datatype BleDeviceInfo = BleDeviceInfo(name: string, address: string, deviceT: BleDeviceInfoTrans)

  datatype BleUiState = BleUiState(
    statusText: string,
    dataText: string,
    scanButtonText: string,
    devicesList: seq<BleDeviceInfo>,
    connectedDeviceAddresses: set<string>)

  /** `BleUiState()` with its defaults. */
  const INITIAL_UI := BleUiState("Not scanning", "No data received", "Start Scan", [], {})

  const UNKNOWN_DEVICE := "Unknown Device"

  /** What the Android platform answers: whether the application context is
      set, whether the adapter exists and is on, whether it hands out an LE
      scanner, the two runtime permissions, and whether the SDK level is at
      least 31 (`Build.VERSION_CODES.S`), below which those permissions are
      not checked. */
  datatype Platform = Platform(
    hasContext: bool,
    adapterEnabled: bool,
    scannerAvailable: bool,
    scanGranted: bool,
    connectGranted: bool,
    sdkAtLeastS: bool)

  // ---------------------------------------------------------------------------
  // The device table

  /** A `LinkedHashMap`: its keys in insertion order, and its entries. */
  datatype DeviceTable = DeviceTable(order: seq<string>, entries: map<string, BleDeviceInfoTrans>)

  predicate Distinct(xs: seq<string>) {
    forall i, j :: 0 <= i < j < |xs| ==> xs[i] != xs[j]
  }

  /** The order lists each key once, and the map holds each device under
      its own address with no repeated service UUID or measure. */
  ghost predicate TableOk(t: DeviceTable) {
    && Distinct(t.order)
    && (forall k :: k in t.order <==> k in t.entries)
    && (forall k :: k in t.entries ==> t.entries[k].address == k)
    && (forall k :: k in t.entries ==> Distinct(t.entries[k].bleServices) && Distinct(t.entries[k].whiteboardServices))
  }

  /** `map[k] = v`: a new key goes to the end of the order, a present one
      keeps its place. */
  function Put(t: DeviceTable, k: string, v: BleDeviceInfoTrans): (r: DeviceTable)
    ensures r.entries == t.entries[k := v]
    ensures k in t.entries ==> r.order == t.order
    ensures k !in t.entries ==> r.order == t.order + [k]
  {
    if k in t.entries then t.(entries := t.entries[k := v]) else DeviceTable(t.order + [k], t.entries[k := v])
  }

  lemma PutKeeps(t: DeviceTable, k: string, v: BleDeviceInfoTrans)
    requires TableOk(t) && v.address == k && Distinct(v.bleServices) && Distinct(v.whiteboardServices)
    ensures TableOk(Put(t, k, v))
  {
    var r := Put(t, k, v);
    if k !in t.entries {
      forall i, j | 0 <= i < j < |r.order| ensures r.order[i] != r.order[j] {
        if j == |t.order| {
          assert r.order[i] == t.order[i];
          assert t.order[i] in t.entries;
        }
      }
    }
  }

  /** The keys of `order` that are in `keep`, in order. */
  function Filter(order: seq<string>, keep: set<string>): (r: seq<string>)
    ensures forall k :: k in r <==> k in order && k in keep
  {
    if order == [] then []
    else (if order[0] in keep then [order[0]] else []) + Filter(order[1..], keep)
  }

  lemma {:induction false} FilterDistinct(order: seq<string>, keep: set<string>)
    requires Distinct(order)
    ensures Distinct(Filter(order, keep))
  {
    if order != [] {
      assert Distinct(order[1..]) by {
        forall i, j | 0 <= i < j < |order[1..]| ensures order[1..][i] != order[1..][j] {
          assert order[1..][i] == order[i + 1] && order[1..][j] == order[j + 1];
        }
      }
      FilterDistinct(order[1..], keep);
      var rest := Filter(order[1..], keep);
      if order[0] in keep {
        assert order[0] !in order[1..] by {
          forall i | 0 <= i < |order[1..]| ensures order[1..][i] != order[0] {
            assert order[1..][i] == order[i + 1];
          }
        }
        var r := [order[0]] + rest;
        forall i, j | 0 <= i < j < |r| ensures r[i] != r[j] {
          if i == 0 {
            assert r[j] == rest[j - 1];
            assert rest[j - 1] in rest;
          } else {
            assert r[i] == rest[i - 1] && r[j] == rest[j - 1];
          }
        }
      } else {
        assert Filter(order, keep) == rest;
      }
    }
  }

  /** `keys.retainAll(keep)`: the entries under kept keys, in their order. */
  function Retain(t: DeviceTable, keep: set<string>): (r: DeviceTable)
    ensures r.entries.Keys == t.entries.Keys * keep
    ensures forall k :: k in r.entries ==> r.entries[k] == t.entries[k]
  {
    DeviceTable(Filter(t.order, keep), map k | k in t.entries && k in keep :: t.entries[k])
  }

  lemma RetainKeeps(t: DeviceTable, keep: set<string>)
    requires TableOk(t)
    ensures TableOk(Retain(t, keep))
  {
    FilterDistinct(t.order, keep);
  }

  /** `updateDevicesList`'s rows: one per entry, in the map's order. */
  function Rows(t: DeviceTable, hasConnectPermission: bool): (r: seq<BleDeviceInfo>)
    requires forall k :: k in t.order ==> k in t.entries
    ensures |r| == |t.order|
    ensures forall i :: 0 <= i < |r| ==> r[i].deviceT == t.entries[t.order[i]]
    decreases |t.order|
  {
    if t.order == [] then []
    else
      var d := t.entries[t.order[0]];
      [BleDeviceInfo(if hasConnectPermission then d.name else UNKNOWN_DEVICE, d.address, d)]
      + Rows(t.(order := t.order[1..]), hasConnectPermission)
  }

  /** Row i shows the i-th device under its own address, named as the
      device is unless the connect permission is lacking; the rows cover
      every entry once. */
  lemma {:induction false} RowsFacts(t: DeviceTable, hasConnectPermission: bool, i: nat)
    requires forall k :: k in t.order ==> k in t.entries
    requires forall k :: k in t.entries ==> t.entries[k].address == k
    requires i < |t.order|
    ensures Rows(t, hasConnectPermission)[i].address == t.order[i]
    ensures Rows(t, hasConnectPermission)[i].name == if hasConnectPermission then t.entries[t.order[i]].name else UNKNOWN_DEVICE
    decreases i
  {
    if i > 0 {
      RowsFacts(t.(order := t.order[1..]), hasConnectPermission, i - 1);
    }
  }

  /** A `LinkedHashMap` lists each entry once: as many rows as entries. */
  lemma {:induction false} DistinctCount(order: seq<string>, keys: set<string>)
    requires Distinct(order)
    requires forall k :: k in order <==> k in keys
    ensures |order| == |keys|
  {
    if order != [] {
      var rest := order[1..];
      assert Distinct(rest) by {
        forall i, j | 0 <= i < j < |rest| ensures rest[i] != rest[j] {
          assert rest[i] == order[i + 1] && rest[j] == order[j + 1];
        }
      }
      forall k | k in rest ensures k in keys - {order[0]} {
        var i :| 0 <= i < |rest| && rest[i] == k;
        assert order[i + 1] == k;
      }
      forall k | k in keys - {order[0]} ensures k in rest {
        var i :| 0 <= i < |order| && order[i] == k;
        assert rest[i - 1] == k;
      }
      DistinctCount(rest, keys - {order[0]});
    } else {
      assert forall k :: k !in keys;
      assert keys == {};
    }
  }

  // ---------------------------------------------------------------------------
  // The view model's state and its operations

  /** The fields the operations change: the `scanning` flag, whether
      `bluetoothLeScanner` is set, the device map and the UI state. */
  datatype VmState = VmState(scanning: bool, hasScanner: bool, devices: DeviceTable, ui: BleUiState)

  ghost predicate VmOk(s: VmState) {
    TableOk(s.devices)
  }

  function WithStatus(s: VmState, status: string): VmState {
    s.(ui := s.ui.(statusText := status))
  }

  /** `startScan`: without a context nothing; a missing or disabled
      adapter, a denied scan permission (from SDK 31 on) or a missing
      scanner each only set a status; otherwise the map keeps just the
      connected devices and scanning starts. */
  function StartScan(s: VmState, p: Platform): (r: VmState)
    ensures !p.hasContext ==> r == s
    ensures r.devices == s.devices || r.devices == Retain(s.devices, s.ui.connectedDeviceAddresses)
    ensures r.scanning <==> s.scanning || (p.hasContext && p.adapterEnabled && (p.scanGranted || !p.sdkAtLeastS) && p.scannerAvailable)
  {
    if !p.hasContext then s
    else if !p.adapterEnabled then WithStatus(s, "Bluetooth is disabled")
    else if !p.scanGranted && p.sdkAtLeastS then WithStatus(s, "Bluetooth scan permission denied")
    else if !p.scannerAvailable then WithStatus(s.(hasScanner := false), "Cannot access Bluetooth scanner")
    else
      VmState(true, true, Retain(s.devices, s.ui.connectedDeviceAddresses),
        s.ui.(scanButtonText := "Stop Scan", statusText := "Scanning..."))
  }

  /** `stopScan`: only a running scan with a scanner stops, and only with
      the scan permission or below SDK 31. */
  function StopScan(s: VmState, p: Platform): (r: VmState)
    ensures r.devices == s.devices && r.hasScanner == s.hasScanner
    ensures !r.scanning <==> !s.scanning || (p.hasContext && s.hasScanner && (p.scanGranted || !p.sdkAtLeastS))
  {
    if p.hasContext && s.scanning && s.hasScanner && (p.scanGranted || !p.sdkAtLeastS) then
      s.(scanning := false, ui := s.ui.(scanButtonText := "Start Scan", statusText := "Scan stopped"))
    else s
  }

  /** The callback `startScan` posts for the end of the scan period; unlike
      `stopScan` it clears the flag whatever the permission. */
  function ScanPeriodElapsed(s: VmState, p: Platform): (r: VmState)
    ensures !r.scanning && r.devices == s.devices
  {
    if !s.scanning then s
    else if p.scanGranted then s.(scanning := false, ui := s.ui.(scanButtonText := "Start Scan", statusText := "Scan stopped"))
    else s.(scanning := false)
  }

  /** `onScanResult`: a named device not yet in the map is added at its
      end; nothing else changes the map. */
  function ScanResult(s: VmState, p: Platform, name: Option<string>, address: string): (r: VmState)
    ensures r.scanning == s.scanning && r.ui == s.ui
    ensures r.devices == if p.hasContext && (p.connectGranted || !p.sdkAtLeastS) && name.Some? && address !in s.devices.entries
      then Put(s.devices, address, BleDeviceInfoTrans(name.value, address, [], []))
      else s.devices
  {
    if !p.hasContext then s
    else if !p.connectGranted && p.sdkAtLeastS then s
    else if name.Some? && address !in s.devices.entries then
      s.(devices := Put(s.devices, address, BleDeviceInfoTrans(name.value, address, [], [])))
    else s
  }

  /** `updateDeviceUuid`: an unknown address or a UUID already listed
      changes nothing; otherwise the UUID goes at the end of the list. */
  function AddServiceUuid(s: VmState, address: string, uuid: string): (r: VmState)
    ensures r.scanning == s.scanning && r.ui == s.ui && r.devices.order == s.devices.order
    ensures address !in s.devices.entries || uuid in s.devices.entries[address].bleServices ==> r == s
    ensures address in s.devices.entries && uuid !in s.devices.entries[address].bleServices ==>
      r.devices.entries == s.devices.entries[address :=
        s.devices.entries[address].(bleServices := s.devices.entries[address].bleServices + [uuid])]
  {
    if address !in s.devices.entries then s
    else
      var original := s.devices.entries[address];
      if uuid in original.bleServices then s
      else s.(devices := Put(s.devices, address, original.(bleServices := original.bleServices + [uuid])))
  }

  /** `updateDeviceWhiteBoard`, the same rule for whiteboard measures. */
  function AddWhiteboard(s: VmState, address: string, whiteboardName: string): (r: VmState)
    ensures r.scanning == s.scanning && r.ui == s.ui && r.devices.order == s.devices.order
    ensures address !in s.devices.entries || whiteboardName in s.devices.entries[address].whiteboardServices ==> r == s
    ensures address in s.devices.entries && whiteboardName !in s.devices.entries[address].whiteboardServices ==>
      r.devices.entries == s.devices.entries[address :=
        s.devices.entries[address].(whiteboardServices := s.devices.entries[address].whiteboardServices + [whiteboardName])]
  {
    if address !in s.devices.entries then s
    else
      var original := s.devices.entries[address];
      if whiteboardName in original.whiteboardServices then s
      else s.(devices := Put(s.devices, address, original.(whiteboardServices := original.whiteboardServices + [whiteboardName])))
  }

  /** `updateDevicesList`: the connect permission is checked once, from
      SDK 31 on. */
  function DevicesList(s: VmState, p: Platform): (r: VmState)
    requires VmOk(s)
    ensures r.devices == s.devices && r.scanning == s.scanning
    ensures p.hasContext ==> |r.ui.devicesList| == |s.devices.entries|
  {
    if !p.hasContext then s
    else
      DistinctCount(s.devices.order, s.devices.entries.Keys);
      s.(ui := s.ui.(devicesList := Rows(s.devices, !p.sdkAtLeastS || p.connectGranted)))
  }

  lemma AppendDistinct(xs: seq<string>, x: string)
    requires Distinct(xs) && x !in xs
    ensures Distinct(xs + [x])
  {
    var ys := xs + [x];
    forall i, j | 0 <= i < j < |ys| ensures ys[i] != ys[j] {
      if j == |xs| {
        assert ys[i] == xs[i];
      }
    }
  }

  /** The operations that change the map keep the table well formed: in
      particular, no device ever lists a UUID or a measure twice. (The
      others leave the map as it is.) */
  lemma StartScanKeeps(s: VmState, p: Platform)
    requires VmOk(s)
    ensures VmOk(StartScan(s, p))
  {
    RetainKeeps(s.devices, s.ui.connectedDeviceAddresses);
  }

  lemma ScanResultKeeps(s: VmState, p: Platform, name: Option<string>, address: string)
    requires VmOk(s)
    ensures VmOk(ScanResult(s, p, name, address))
  {
    if name.Some? && address !in s.devices.entries {
      PutKeeps(s.devices, address, BleDeviceInfoTrans(name.value, address, [], []));
    }
  }

  lemma AddServiceUuidKeeps(s: VmState, address: string, uuid: string)
    requires VmOk(s)
    ensures VmOk(AddServiceUuid(s, address, uuid))
  {
    if address in s.devices.entries {
      var original := s.devices.entries[address];
      if uuid !in original.bleServices {
        AppendDistinct(original.bleServices, uuid);
        PutKeeps(s.devices, address, original.(bleServices := original.bleServices + [uuid]));
      }
    }
  }

  lemma AddWhiteboardKeeps(s: VmState, address: string, whiteboardName: string)
    requires VmOk(s)
    ensures VmOk(AddWhiteboard(s, address, whiteboardName))
  {
    if address in s.devices.entries {
      var original := s.devices.entries[address];
      if whiteboardName !in original.whiteboardServices {
        AppendDistinct(original.whiteboardServices, whiteboardName);
        PutKeeps(s.devices, address, original.(whiteboardServices := original.whiteboardServices + [whiteboardName]));
      }
    }
  }

  /** `startScan` keeps exactly the devices that are connected. */
  lemma StartScanRetainsConnected(s: VmState, p: Platform)
    requires VmOk(s)
    requires p.hasContext && p.adapterEnabled && (p.scanGranted || !p.sdkAtLeastS) && p.scannerAvailable
    ensures var r := StartScan(s, p);
      && r.scanning
      && r.devices.entries.Keys == s.devices.entries.Keys * s.ui.connectedDeviceAddresses
      && (forall k :: k in r.devices.entries ==> r.devices.entries[k] == s.devices.entries[k])
      && (forall i, j :: 0 <= i < j < |r.devices.order| ==> r.devices.order[i] != r.devices.order[j])
  {
    RetainKeeps(s.devices, s.ui.connectedDeviceAddresses);
  }

  class BleViewModel {
    var scanning: bool
    var hasScanner: bool
    var scannedDevices: DeviceTable
    var uiState: BleUiState

    constructor()
      ensures Vm() == VmState(false, false, DeviceTable([], map[]), INITIAL_UI) && Valid()
    {
      scanning := false;
      hasScanner := false;
      scannedDevices := DeviceTable([], map[]);
      uiState := INITIAL_UI;
    }

    function Vm(): VmState
      reads this
    {
      VmState(scanning, hasScanner, scannedDevices, uiState)
    }

    ghost predicate Valid()
      reads this
    {
      VmOk(Vm())
    }

    /** `onScanClicked`: start when idle, stop when scanning. */
    method OnScanClicked(p: Platform)
      requires Valid()
      modifies this
      ensures Valid()
      ensures Vm() == if old(scanning) then StopScan(old(Vm()), p) else StartScan(old(Vm()), p)
    {
      if !scanning {
        StartScanning(p);
      } else {
        StopScanning(p);
      }
    }

    /** `startScan`. */
    method StartScanning(p: Platform)
      requires Valid()
      modifies this
      ensures Valid()
      ensures Vm() == StartScan(old(Vm()), p)
    {
      StartScanKeeps(Vm(), p);
      if !p.hasContext {
        return;
      }
      if !p.adapterEnabled {
        uiState := uiState.(statusText := "Bluetooth is disabled");
        return;
      }
      if !p.scanGranted && p.sdkAtLeastS {
        uiState := uiState.(statusText := "Bluetooth scan permission denied");
        return;
      }
      hasScanner := p.scannerAvailable;
      if !hasScanner {
        uiState := uiState.(statusText := "Cannot access Bluetooth scanner");
        return;
      }
      scannedDevices := Retain(scannedDevices, uiState.connectedDeviceAddresses);
      scanning := true;
      uiState := uiState.(scanButtonText := "Stop Scan");
      uiState := uiState.(statusText := "Scanning...");
    }

    /** `stopScan`. */
    method StopScanning(p: Platform)
      requires Valid()
      modifies this
      ensures Valid()
      ensures Vm() == StopScan(old(Vm()), p)
    {
      if p.hasContext && scanning && hasScanner && (p.scanGranted || !p.sdkAtLeastS) {
        scanning := false;
        uiState := uiState.(scanButtonText := "Start Scan");
        uiState := uiState.(statusText := "Scan stopped");
      }
    }

    /** The delayed end-of-scan callback. */
    method OnScanPeriodElapsed(p: Platform)
      requires Valid()
      modifies this
      ensures Valid()
      ensures Vm() == ScanPeriodElapsed(old(Vm()), p)
    {
      if scanning {
        scanning := false;
        if p.scanGranted {
          uiState := uiState.(scanButtonText := "Start Scan");
          uiState := uiState.(statusText := "Scan stopped");
        }
      }
    }

    /** `scanCallback.onScanResult`. */
    method OnScanResult(p: Platform, name: Option<string>, address: string)
      requires Valid()
      modifies this
      ensures Valid()
      ensures Vm() == ScanResult(old(Vm()), p, name, address)
    {
      ScanResultKeeps(Vm(), p, name, address);
      if !p.hasContext {
        return;
      }
      if !p.connectGranted && p.sdkAtLeastS {
        return;
      }
      if name.Some? && address !in scannedDevices.entries {
        scannedDevices := Put(scannedDevices, address, BleDeviceInfoTrans(name.value, address, [], []));
      }
    }

    /** `updateDeviceUuid`. */
    method UpdateDeviceUuid(address: string, uuid: string)
      requires Valid()
      modifies this
      ensures Valid()
      ensures Vm() == AddServiceUuid(old(Vm()), address, uuid)
    {
      AddServiceUuidKeeps(Vm(), address, uuid);
      if address !in scannedDevices.entries {
        return;
      }
      var originalDevice := scannedDevices.entries[address];
      if uuid in originalDevice.bleServices {
        return;
      }
      var updated := originalDevice.(bleServices := originalDevice.bleServices + [uuid]);
      scannedDevices := Put(scannedDevices, address, updated);
    }

    /** `updateDeviceWhiteBoard`. */
    method UpdateDeviceWhiteBoard(address: string, whiteboardName: string)
      requires Valid()
      modifies this
      ensures Valid()
      ensures Vm() == AddWhiteboard(old(Vm()), address, whiteboardName)
    {
      AddWhiteboardKeeps(Vm(), address, whiteboardName);
      if address !in scannedDevices.entries {
        return;
      }
      var originalDevice := scannedDevices.entries[address];
      if whiteboardName in originalDevice.whiteboardServices {
        return;
      }
      var updated := originalDevice.(whiteboardServices := originalDevice.whiteboardServices + [whiteboardName]);
      scannedDevices := Put(scannedDevices, address, updated);
    }

    /** `updateDevicesList`. */
    method UpdateDevicesList(p: Platform)
      requires Valid()
      modifies this
      ensures Valid()
      ensures Vm() == DevicesList(old(Vm()), p)
    {
      if !p.hasContext {
        return;
      }
      var hasConnectPermission := if p.sdkAtLeastS then p.connectGranted else true;
      uiState := uiState.(devicesList := Rows(scannedDevices, hasConnectPermission));
    }

    /** `updateConnectedDevices`: the service's set, or none without a service. */
    method UpdateConnectedDevices(serviceAddresses: Option<set<string>>)
      modifies this
      ensures Vm() == old(Vm()).(ui := old(uiState).(connectedDeviceAddresses := serviceAddresses.GetOr({})))
    {
      uiState := uiState.(connectedDeviceAddresses := serviceAddresses.GetOr({}));
    }

    /** `updateStatus`. */
    method UpdateStatus(status: string)
      modifies this
      ensures Vm() == WithStatus(old(Vm()), status)
    {
      uiState := uiState.(statusText := status);
    }

    /** `updateData`. */
    method UpdateData(data: string)
      modifies this
      ensures Vm() == old(Vm()).(ui := old(uiState).(dataText := data))
    {
      uiState := uiState.(dataText := data);
    }
  }
}
