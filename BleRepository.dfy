/** BleRepository.kt: the table of device states the app shares, keyed by
    Bluetooth address, with the status line and the latest data text. Each
    `update*` replaces the table by a new one computed from the old. */
module Repositories {
  import opened Wrappers
  import opened Text
  import opened BleCharacteristics

  /** A whiteboard (Movesense REST) measure shown for a device. */
  datatype WhiteboardMeasureInfo = WhiteboardMeasureInfo(name: string, isSubscribed: bool)

  /** `BleDeviceState`; the Android `BluetoothDevice` it also holds is left out. */
  datatype BleDeviceState = BleDeviceState(
    name: string,
    address: string,
    isConnected: bool,
    bleServices: seq<BleCharacteristicInfo>,
    whiteboardServices: seq<WhiteboardMeasureInfo>,
    txPhy: string,
    rxPhy: string,
    supportedPhy: string,
    rssi: int,
    appTagName: string)

  /** The state with the data class's defaults for everything but name and address. */
  function DefaultState(name: string, address: string): (s: BleDeviceState)
    ensures s.name == name && s.address == address && !s.isConnected && s.rssi == 0
    ensures s.bleServices == [] && s.whiteboardServices == [] && s.appTagName == ""
    ensures s.txPhy == "Unknown" && s.rxPhy == "Unknown" && s.supportedPhy == "Unknown"
  {
    BleDeviceState(name, address, false, [], [], "Unknown", "Unknown", "Unknown", 0, "")
  }

  /** `phyToString` (here and in BleManager.kt): the LE PHY constants
      PHY_LE_1M = 1, PHY_LE_2M = 2 and PHY_LE_CODED = 3. */
  function PhyToString(phy: int): (r: string)
    ensures phy == 1 <==> r == "1M"
    ensures phy == 2 <==> r == "2M"
    ensures phy == 3 <==> r == "Coded"
    ensures phy !in {1, 2, 3} <==> r == "Unknown"
  {
    if phy == 1 then "1M" else if phy == 2 then "2M" else if phy == 3 then "Coded" else "Unknown"
  }

  // ---------------------------------------------------------------------------
  // Per-characteristic and per-measure flags

  /** The `bleServices.map { … }` of `updateCharacteristicNotificationState`:
      every entry whose uuid equals `uuid` ignoring case takes the flag. */
  function SetNotifying(cs: seq<BleCharacteristicInfo>, uuid: string, on: bool): (r: seq<BleCharacteristicInfo>)
    ensures |r| == |cs|
    ensures forall i :: 0 <= i < |cs| ==>
      if EqualsIgnoreCase(cs[i].uuid, uuid) then r[i] == cs[i].(isNotifying := on) else r[i] == cs[i]
  {
    if cs == [] then []
    else [if EqualsIgnoreCase(cs[0].uuid, uuid) then cs[0].(isNotifying := on) else cs[0]] + SetNotifying(cs[1..], uuid, on)
  }

  /** The `whiteboardServices.map { … }` of `updateWhiteboardSubscriptionState`:
      exact, case-sensitive names. */
  function SetSubscribed(ws: seq<WhiteboardMeasureInfo>, name: string, on: bool): (r: seq<WhiteboardMeasureInfo>)
    ensures |r| == |ws|
    ensures forall i :: 0 <= i < |ws| ==>
      if ws[i].name == name then r[i] == ws[i].(isSubscribed := on) else r[i] == ws[i]
  {
    if ws == [] then []
    else [if ws[0].name == name then ws[0].(isSubscribed := on) else ws[0]] + SetSubscribed(ws[1..], name, on)
  }

  // ---------------------------------------------------------------------------
  // Entry updates

  /** The field each `update*` function sets. */
  datatype FieldUpdate =
    | ConnectionState(isConnected: bool)
    | DeviceServices(services: seq<BleCharacteristicInfo>)
    | DeviceWhiteboards(whiteboards: seq<WhiteboardMeasureInfo>)
    | DevicePhy(txPhy: string, rxPhy: string)
    | DeviceSupportedPhy(supportedPhy: string)
    | DeviceRssi(rssi: int)
    | DeviceAppTagName(tagName: string)
    | CharacteristicNotificationState(characteristicUuid: string, isNotifying: bool)
    | WhiteboardSubscriptionState(measureName: string, isSubscribed: bool)

  /** The `it.copy(…)` of each update. */
  function Apply(u: FieldUpdate, s: BleDeviceState): BleDeviceState {
    match u
    case ConnectionState(v) => s.(isConnected := v)
    case DeviceServices(v) => s.(bleServices := v)
    case DeviceWhiteboards(v) => s.(whiteboardServices := v)
    case DevicePhy(tx, rx) => s.(txPhy := tx, rxPhy := rx)
    case DeviceSupportedPhy(v) => s.(supportedPhy := v)
    case DeviceRssi(v) => s.(rssi := v)
    case DeviceAppTagName(v) => s.(appTagName := v)
    case CharacteristicNotificationState(uuid, on) => s.(bleServices := SetNotifying(s.bleServices, uuid, on))
    case WhiteboardSubscriptionState(name, on) => s.(whiteboardServices := SetSubscribed(s.whiteboardServices, name, on))
  }

  /** `devices[address]?.let { devices + (address to it.copy(…)) } ?: devices`. */
  function Update(devices: map<string, BleDeviceState>, address: string, u: FieldUpdate): map<string, BleDeviceState> {
    if address in devices then devices[address := Apply(u, devices[address])] else devices
  }

  /** An update on an absent address changes nothing; on a present one it
      changes that entry only, and the addresses stay the same. */
  lemma UpdateFrame(devices: map<string, BleDeviceState>, address: string, u: FieldUpdate)
    ensures address !in devices ==> Update(devices, address, u) == devices
    ensures Update(devices, address, u).Keys == devices.Keys
    ensures forall a :: a in devices && a != address ==> Update(devices, address, u)[a] == devices[a]
    ensures address in devices ==> Update(devices, address, u)[address] == Apply(u, devices[address])
  {
  }

  /** Each update changes only its own fields: putting back their old values
      gives the old state. */
  lemma ApplyChangesOnlyItsField(u: FieldUpdate, s: BleDeviceState)
    ensures u.ConnectionState? ==> Apply(u, s).isConnected == u.isConnected && Apply(u, s).(isConnected := s.isConnected) == s
    ensures u.DeviceServices? ==> Apply(u, s).bleServices == u.services && Apply(u, s).(bleServices := s.bleServices) == s
    ensures u.DeviceWhiteboards? ==> Apply(u, s).whiteboardServices == u.whiteboards && Apply(u, s).(whiteboardServices := s.whiteboardServices) == s
    ensures u.DevicePhy? ==> Apply(u, s).txPhy == u.txPhy && Apply(u, s).rxPhy == u.rxPhy && Apply(u, s).(txPhy := s.txPhy, rxPhy := s.rxPhy) == s
    ensures u.DeviceSupportedPhy? ==> Apply(u, s).supportedPhy == u.supportedPhy && Apply(u, s).(supportedPhy := s.supportedPhy) == s
    ensures u.DeviceRssi? ==> Apply(u, s).rssi == u.rssi && Apply(u, s).(rssi := s.rssi) == s
    ensures u.DeviceAppTagName? ==> Apply(u, s).appTagName == u.tagName && Apply(u, s).(appTagName := s.appTagName) == s
    ensures u.CharacteristicNotificationState? ==> Apply(u, s).(bleServices := s.bleServices) == s
    ensures u.WhiteboardSubscriptionState? ==> Apply(u, s).(whiteboardServices := s.whiteboardServices) == s
  {
  }

  lemma {:induction false} SetNotifyingIdempotent(cs: seq<BleCharacteristicInfo>, uuid: string, on: bool)
    ensures SetNotifying(SetNotifying(cs, uuid, on), uuid, on) == SetNotifying(cs, uuid, on)
  {
    var once := SetNotifying(cs, uuid, on);
    var twice := SetNotifying(once, uuid, on);
    assert |twice| == |once|;
    forall i | 0 <= i < |cs| ensures twice[i] == once[i] {
      assert once[i].uuid == cs[i].uuid;
    }
  }

  lemma {:induction false} SetSubscribedIdempotent(ws: seq<WhiteboardMeasureInfo>, name: string, on: bool)
    ensures SetSubscribed(SetSubscribed(ws, name, on), name, on) == SetSubscribed(ws, name, on)
  {
    var once := SetSubscribed(ws, name, on);
    var twice := SetSubscribed(once, name, on);
    assert |twice| == |once|;
    forall i | 0 <= i < |ws| ensures twice[i] == once[i] {
      assert once[i].name == ws[i].name;
    }
  }

  /** Applying an update twice with the same arguments is applying it once. */
  lemma UpdateIdempotent(devices: map<string, BleDeviceState>, address: string, u: FieldUpdate)
    ensures Update(Update(devices, address, u), address, u) == Update(devices, address, u)
  {
    if address in devices {
      var s := devices[address];
      match u
      case CharacteristicNotificationState(uuid, on) => SetNotifyingIdempotent(s.bleServices, uuid, on);
      case WhiteboardSubscriptionState(name, on) => SetSubscribedIdempotent(s.whiteboardServices, name, on);
      case _ =>
    }
  }

  // ---------------------------------------------------------------------------
  // Scan bookkeeping

  /** `addOrUpdateScannedDevice`: a new address gets the default state named
      after the device ("Unknown Device" without a name); then the rssi and
      the name are taken from the arguments where given. */
  function AddOrUpdate(devices: map<string, BleDeviceState>, address: string, deviceName: Option<string>, rssi: Option<int>): map<string, BleDeviceState> {
    var current := if address in devices then devices[address] else DefaultState(deviceName.GetOr("Unknown Device"), address);
    devices[address := current.(rssi := rssi.GetOr(current.rssi), name := deviceName.GetOr(current.name))]
  }

  lemma AddOrUpdateFacts(devices: map<string, BleDeviceState>, address: string, deviceName: Option<string>, rssi: Option<int>)
    ensures var r := AddOrUpdate(devices, address, deviceName, rssi);
      && r.Keys == devices.Keys + {address}
      && (forall a :: a in devices && a != address ==> r[a] == devices[a])
      && (address !in devices && rssi.None? ==> r[address] == DefaultState(deviceName.GetOr("Unknown Device"), address))
      && (address in devices && rssi.None? ==> r[address].rssi == devices[address].rssi)
      && (address in devices && deviceName.None? ==> r[address].name == devices[address].name)
      && (address in devices ==> r[address].(rssi := devices[address].rssi, name := devices[address].name) == devices[address])
    ensures var r := AddOrUpdate(devices, address, deviceName, rssi);
      && (rssi.Some? ==> r[address].rssi == rssi.value)
      && (deviceName.Some? ==> r[address].name == deviceName.value)
      && (address !in devices && rssi.Some? ==>
            r[address] == DefaultState(deviceName.GetOr("Unknown Device"), address).(rssi := rssi.value))
  {
  }

  /** `clearScannedDevices`: the entries kept are those whose address is
      excepted or whose device is connected. */
  function ClearScanned(devices: map<string, BleDeviceState>, exceptConnected: set<string>): (r: map<string, BleDeviceState>)
    ensures forall a :: a in r <==> a in devices && (a in exceptConnected || devices[a].isConnected)
    ensures forall a :: a in r ==> r[a] == devices[a]
  {
    map a | a in devices && (a in exceptConnected || devices[a].isConnected) :: devices[a]
  }

  // ---------------------------------------------------------------------------
  // The repository

  class BleRepository {
    var scannedDevices: map<string, BleDeviceState>
    var statusText: string
    var latestData: string

    constructor()
      ensures scannedDevices == map[] && statusText == "Ready" && latestData == ""
    {
      scannedDevices := map[];
      statusText := "Ready";
      latestData := "";
    }

    method UpdateStatus(status: string)
      modifies this
      ensures statusText == status
      ensures scannedDevices == old(scannedDevices) && latestData == old(latestData)
    {
      statusText := status;
    }

    method UpdateData(data: string)
      modifies this
      ensures latestData == data
      ensures scannedDevices == old(scannedDevices) && statusText == old(statusText)
    {
      latestData := data;
    }

    method AddOrUpdateScannedDevice(address: string, deviceName: Option<string>, rssi: Option<int>)
      modifies this
      ensures scannedDevices == AddOrUpdate(old(scannedDevices), address, deviceName, rssi)
      ensures statusText == old(statusText) && latestData == old(latestData)
    {
      scannedDevices := AddOrUpdate(scannedDevices, address, deviceName, rssi);
    }

    /** Every `update*(address, …)`, by the field it sets. */
    method UpdateDevice(address: string, u: FieldUpdate)
      modifies this
      ensures scannedDevices == Update(old(scannedDevices), address, u)
      ensures statusText == old(statusText) && latestData == old(latestData)
    {
      scannedDevices := Update(scannedDevices, address, u);
    }

    method ClearScannedDevices(exceptConnected: set<string>)
      modifies this
      ensures scannedDevices == ClearScanned(old(scannedDevices), exceptConnected)
      ensures statusText == old(statusText) && latestData == old(latestData)
    {
      scannedDevices := ClearScanned(scannedDevices, exceptConnected);
    }
  }
}
