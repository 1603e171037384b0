/** DeviceConfiguration.kt: the configuration data classes and
    `DeviceConfigurationManager`, which caches the current configuration,
    finds the entry for a device, a service and a characteristic, and decodes
    a characteristic's bytes by its configured `dataType`. */
module DeviceConfiguration {
  import opened Wrappers
  import opened Bytes
  import opened Text
  import opened BleDataParsers

  datatype CharacteristicInfo = CharacteristicInfo(
    uuid: string, name: string, dataType: string, mqttTopic: string, customParser: Option<string>)

  datatype ServiceInfo = ServiceInfo(uuid: string, name: string, characteristics: seq<CharacteristicInfo>)

  datatype DeviceInfo = DeviceInfo(name: string, shortName: string, services: seq<ServiceInfo>)

  datatype DataTypeInfo = DataTypeInfo(size: string, conversion: string, description: Option<string>)

  /** `devices` is a Kotlin map kept in its iteration order: a list of
      (key, entry) pairs. */
  datatype Configuration = Configuration(devices: seq<(string, DeviceInfo)>, dataTypes: map<string, DataTypeInfo>)

  /** The keys of `devices`, each counted once, as a Kotlin map holds them. */
  function DeviceKeys(devices: seq<(string, DeviceInfo)>): (r: set<string>)
    ensures forall k :: k in r <==> exists i :: 0 <= i < |devices| && devices[i].0 == k
  {
    set i | 0 <= i < |devices| :: devices[i].0
  }

  /** No key repeats, as in the Kotlin map the list stands for. */
  predicate DistinctKeys(devices: seq<(string, DeviceInfo)>) {
    forall i, j :: 0 <= i < j < |devices| ==> devices[i].0 != devices[j].0
  }

  /** With distinct keys, the map's size is the length of the list. */
  lemma {:induction false} DistinctKeysCount(devices: seq<(string, DeviceInfo)>)
    requires DistinctKeys(devices)
    ensures |DeviceKeys(devices)| == |devices|
  {
    if devices != [] {
      var rest := devices[1..];
      assert DistinctKeys(rest) by {
        forall i, j | 0 <= i < j < |rest| ensures rest[i].0 != rest[j].0 {
          assert rest[i] == devices[i + 1] && rest[j] == devices[j + 1];
        }
      }
      DistinctKeysCount(rest);
      assert DeviceKeys(devices) == {devices[0].0} + DeviceKeys(rest) by {
        forall k | k in DeviceKeys(devices) ensures k in {devices[0].0} + DeviceKeys(rest) {
          var i :| 0 <= i < |devices| && devices[i].0 == k;
          if i > 0 {
            assert rest[i - 1] == devices[i];
          }
        }
        forall k | k in DeviceKeys(rest) ensures k in DeviceKeys(devices) {
          var i :| 0 <= i < |rest| && rest[i].0 == k;
          assert devices[i + 1] == rest[i];
        }
      }
      forall i | 0 <= i < |rest| ensures rest[i].0 != devices[0].0 {
        assert devices[i + 1] == rest[i];
      }
    }
  }

  // ---------------------------------------------------------------------------
  // Device lookup

  /** `config.devices[key]`: the entry under the key (the first, should a
      list of pairs repeat one). */
  function ExactDevice(devices: seq<(string, DeviceInfo)>, key: string): (r: Option<DeviceInfo>)
    ensures r.Some? <==> exists i :: 0 <= i < |devices| && devices[i].0 == key
    ensures r.Some? ==> exists i :: 0 <= i < |devices| && devices[i] == (key, r.value)
  {
    if devices == [] then None
    else if devices[0].0 == key then Some(devices[0].1)
    else
      var r := ExactDevice(devices[1..], key);
      assert r.Some? ==> exists i :: 0 <= i < |devices[1..]| && devices[1..][i] == (key, r.value);
      r
  }

  /** The partial-match test: either name of the device contains the search
      name, or the search name contains either of them, ignoring case. */
  predicate PartialMatch(device: DeviceInfo, name: string) {
    || ContainsIgnoreCase(device.name, name)
    || ContainsIgnoreCase(device.shortName, name)
    || ContainsIgnoreCase(name, device.name)
    || ContainsIgnoreCase(name, device.shortName)
  }

  /** `devices.values.find { … }`: the first device, in iteration order,
      that partially matches. */
  function FirstPartial(devices: seq<(string, DeviceInfo)>, name: string): (r: Option<DeviceInfo>)
    ensures r.Some? ==> PartialMatch(r.value, name)
    ensures r.None? <==> forall i :: 0 <= i < |devices| ==> !PartialMatch(devices[i].1, name)
  {
    if devices == [] then None
    else if PartialMatch(devices[0].1, name) then Some(devices[0].1)
    else
      var r := FirstPartial(devices[1..], name);
      assert forall i :: 1 <= i < |devices| ==> devices[i] == devices[1..][i - 1];
      r
  }

  /** `findDeviceConfig` on a loaded configuration: the exact key first,
      then the first partial match; no name finds nothing. */
  function FindDevice(config: Configuration, deviceName: Option<string>): Option<DeviceInfo> {
    match deviceName
    case None => None
    case Some(name) =>
      match ExactDevice(config.devices, name)
      case Some(d) => Some(d)
      case None => FirstPartial(config.devices, name)
  }

  /** The first partial match is the first device for which the test holds. */
  lemma {:induction false} FirstPartialIsFirst(devices: seq<(string, DeviceInfo)>, name: string, i: nat)
    requires i < |devices| && PartialMatch(devices[i].1, name)
    requires forall j :: 0 <= j < i ==> !PartialMatch(devices[j].1, name)
    ensures FirstPartial(devices, name) == Some(devices[i].1)
  {
    if i > 0 {
      assert !PartialMatch(devices[0].1, name);
      assert devices[1..][i - 1] == devices[i];
      forall j | 0 <= j < i - 1 ensures !PartialMatch(devices[1..][j].1, name) {
        assert devices[1..][j] == devices[j + 1];
      }
      FirstPartialIsFirst(devices[1..], name, i - 1);
    }
  }

  /** An exact key always wins over a partial match, and a device whose
      names equal the search name ignoring case is found even without its key. */
  lemma FindDevicePrecedence(config: Configuration, name: string)
    ensures ExactDevice(config.devices, name).Some? ==> FindDevice(config, Some(name)) == ExactDevice(config.devices, name)
    ensures ExactDevice(config.devices, name).None? ==> FindDevice(config, Some(name)) == FirstPartial(config.devices, name)
    ensures (exists i :: 0 <= i < |config.devices| && EqualsIgnoreCase(config.devices[i].1.name, name)) ==> FindDevice(config, Some(name)).Some?
  {
    if i :| 0 <= i < |config.devices| && EqualsIgnoreCase(config.devices[i].1.name, name) {
      ContainsSelf(config.devices[i].1.name, name);
      assert PartialMatch(config.devices[i].1, name);
    }
  }

  // ---------------------------------------------------------------------------
  // Service and characteristic lookup

  /** The first characteristic whose UUID equals `uuid` ignoring case. */
  function FindInCharacteristics(cs: seq<CharacteristicInfo>, uuid: string): (r: Option<CharacteristicInfo>)
    ensures r.Some? ==> r.value in cs && EqualsIgnoreCase(r.value.uuid, uuid)
    ensures r.None? <==> forall i :: 0 <= i < |cs| ==> !EqualsIgnoreCase(cs[i].uuid, uuid)
  {
    if cs == [] then None
    else if EqualsIgnoreCase(cs[0].uuid, uuid) then Some(cs[0])
    else
      var r := FindInCharacteristics(cs[1..], uuid);
      assert forall i :: 1 <= i < |cs| ==> cs[i] == cs[1..][i - 1];
      r
  }

  /** The first characteristic found is the first in the list that matches. */
  lemma {:induction false} FindInCharacteristicsIsFirst(cs: seq<CharacteristicInfo>, uuid: string, i: nat)
    requires i < |cs| && EqualsIgnoreCase(cs[i].uuid, uuid)
    requires forall j :: 0 <= j < i ==> !EqualsIgnoreCase(cs[j].uuid, uuid)
    ensures FindInCharacteristics(cs, uuid) == Some(cs[i])
  {
    if i > 0 {
      assert !EqualsIgnoreCase(cs[0].uuid, uuid);
      assert cs[1..][i - 1] == cs[i];
      forall j | 0 <= j < i - 1 ensures !EqualsIgnoreCase(cs[1..][j].uuid, uuid) {
        assert cs[1..][j] == cs[j + 1];
      }
      FindInCharacteristicsIsFirst(cs[1..], uuid, i - 1);
    }
  }

  /** `findServiceAndCharacteristic`'s search over one device's services:
      the first service with a matching UUID that also holds a matching
      characteristic; a matching service without one does not end the search. */
  function FindPair(services: seq<ServiceInfo>, serviceUuid: string, characteristicUuid: string): (r: Option<(ServiceInfo, CharacteristicInfo)>)
    ensures r.Some? ==> r.value.0 in services && r.value.1 in r.value.0.characteristics
    ensures r.Some? ==> EqualsIgnoreCase(r.value.0.uuid, serviceUuid) && EqualsIgnoreCase(r.value.1.uuid, characteristicUuid)
    ensures r.None? <==> forall i :: 0 <= i < |services| && EqualsIgnoreCase(services[i].uuid, serviceUuid) ==>
      FindInCharacteristics(services[i].characteristics, characteristicUuid).None?
  {
    if services == [] then None
    else
      var found := if EqualsIgnoreCase(services[0].uuid, serviceUuid)
        then FindInCharacteristics(services[0].characteristics, characteristicUuid) else None;
      if found.Some? then Some((services[0], found.value))
      else
        var r := FindPair(services[1..], serviceUuid, characteristicUuid);
        assert forall i :: 1 <= i < |services| ==> services[i] == services[1..][i - 1];
        r
  }

  /** The pair found is the first in list order: service `i` matches and holds
      a matching characteristic, and no earlier matching service holds one. */
  lemma {:induction false} FindPairIsFirst(services: seq<ServiceInfo>, serviceUuid: string, characteristicUuid: string, i: nat)
    requires i < |services| && EqualsIgnoreCase(services[i].uuid, serviceUuid)
    requires FindInCharacteristics(services[i].characteristics, characteristicUuid).Some?
    requires forall j :: 0 <= j < i && EqualsIgnoreCase(services[j].uuid, serviceUuid) ==>
      FindInCharacteristics(services[j].characteristics, characteristicUuid).None?
    ensures FindPair(services, serviceUuid, characteristicUuid) ==
      Some((services[i], FindInCharacteristics(services[i].characteristics, characteristicUuid).value))
  {
    if i > 0 {
      assert services[1..][i - 1] == services[i];
      forall j | 0 <= j < i - 1 && EqualsIgnoreCase(services[1..][j].uuid, serviceUuid)
        ensures FindInCharacteristics(services[1..][j].characteristics, characteristicUuid).None?
      {
        assert services[1..][j] == services[j + 1];
      }
      FindPairIsFirst(services[1..], serviceUuid, characteristicUuid, i - 1);
    }
  }

  /** `findCharacteristicByUuid`'s search over the devices, their services and
      their characteristics, in that nesting. */
  function FindInServices(services: seq<ServiceInfo>, uuid: string): (r: Option<CharacteristicInfo>)
  {
    if services == [] then None
    else
      match FindInCharacteristics(services[0].characteristics, uuid)
      case Some(c) => Some(c)
      case None => FindInServices(services[1..], uuid)
  }

  function FindInDevices(devices: seq<(string, DeviceInfo)>, uuid: string): (r: Option<CharacteristicInfo>)
  {
    if devices == [] then None
    else
      match FindInServices(devices[0].1.services, uuid)
      case Some(c) => Some(c)
      case None => FindInDevices(devices[1..], uuid)
  }

  /** Every characteristic of the services, in the nested loops' order. */
  function ServiceCharacteristics(services: seq<ServiceInfo>): seq<CharacteristicInfo> {
    if services == [] then [] else services[0].characteristics + ServiceCharacteristics(services[1..])
  }

  function AllCharacteristics(devices: seq<(string, DeviceInfo)>): seq<CharacteristicInfo> {
    if devices == [] then [] else ServiceCharacteristics(devices[0].1.services) + AllCharacteristics(devices[1..])
  }

  /** Searching a concatenation searches the first part, then the second. */
  lemma {:induction false} FindInAppend(a: seq<CharacteristicInfo>, b: seq<CharacteristicInfo>, uuid: string)
    ensures FindInCharacteristics(a + b, uuid) ==
      if FindInCharacteristics(a, uuid).Some? then FindInCharacteristics(a, uuid) else FindInCharacteristics(b, uuid)
  {
    if a == [] {
      assert a + b == b;
    } else {
      assert (a + b)[1..] == a[1..] + b;
      FindInAppend(a[1..], b, uuid);
    }
  }

  lemma {:induction false} FindInServicesFlat(services: seq<ServiceInfo>, uuid: string)
    ensures FindInServices(services, uuid) == FindInCharacteristics(ServiceCharacteristics(services), uuid)
  {
    if services != [] {
      FindInServicesFlat(services[1..], uuid);
      FindInAppend(services[0].characteristics, ServiceCharacteristics(services[1..]), uuid);
    }
  }

  /** The nested search finds the first matching characteristic of the
      flattened list: devices are searched irrespective of their names. */
  lemma {:induction false} FindInDevicesFlat(devices: seq<(string, DeviceInfo)>, uuid: string)
    ensures FindInDevices(devices, uuid) == FindInCharacteristics(AllCharacteristics(devices), uuid)
  {
    if devices != [] {
      FindInDevicesFlat(devices[1..], uuid);
      FindInServicesFlat(devices[0].1.services, uuid);
      FindInAppend(ServiceCharacteristics(devices[0].1.services), AllCharacteristics(devices[1..]), uuid);
    }
  }

  /** The lookup the GATT callbacks use: the device-specific pair's
      characteristic, and only when there is none the first characteristic
      with the UUID on any device. */
  function ResolveCharacteristic(config: Option<Configuration>, deviceName: string, serviceUuid: string, characteristicUuid: string): Option<CharacteristicInfo> {
    if config.None? then None
    else
      var pair := match FindDevice(config.value, Some(deviceName))
        case None => None
        case Some(device) => FindPair(device.services, serviceUuid, characteristicUuid);
      if pair.Some? then Some(pair.value.1) else FindInDevices(config.value.devices, characteristicUuid)
  }

  /** The device-specific entry takes precedence; the fallback matches the
      UUID only, on any device; either way the UUID matches. */
  lemma ResolvePrecedence(config: Option<Configuration>, deviceName: string, serviceUuid: string, characteristicUuid: string)
    ensures var r := ResolveCharacteristic(config, deviceName, serviceUuid, characteristicUuid);
      && (config.None? ==> r.None?)
      && (r.Some? ==> EqualsIgnoreCase(r.value.uuid, characteristicUuid) && r.value in AllCharacteristics(config.value.devices))
      && (config.Some? && FindDevice(config.value, Some(deviceName)).Some? &&
          FindPair(FindDevice(config.value, Some(deviceName)).value.services, serviceUuid, characteristicUuid).Some? ==>
          r == Some(FindPair(FindDevice(config.value, Some(deviceName)).value.services, serviceUuid, characteristicUuid).value.1))
      && (config.Some? && (FindDevice(config.value, Some(deviceName)).None? ||
          FindPair(FindDevice(config.value, Some(deviceName)).value.services, serviceUuid, characteristicUuid).None?) ==>
          r == FindInCharacteristics(AllCharacteristics(config.value.devices), characteristicUuid))
  {
    if config.Some? {
      FindInDevicesFlat(config.value.devices, characteristicUuid);
      var device := FindDevice(config.value, Some(deviceName));
      if device.Some? {
        var pair := FindPair(device.value.services, serviceUuid, characteristicUuid);
        if pair.Some? {
          DeviceInConfiguration(config.value, Some(deviceName));
          ServiceCharacteristicsHold(device.value.services, pair.value.0, pair.value.1);
          AllCharacteristicsHold(config.value.devices, device.value, pair.value.1);
        }
      }
    }
  }

  /** A device found is one of the configuration's devices. */
  lemma DeviceInConfiguration(config: Configuration, deviceName: Option<string>)
    ensures FindDevice(config, deviceName).Some? ==>
      exists i :: 0 <= i < |config.devices| && config.devices[i].1 == FindDevice(config, deviceName).value
  {
    if deviceName.Some? && ExactDevice(config.devices, deviceName.value).None? {
      FirstPartialIn(config.devices, deviceName.value);
    }
  }

  lemma {:induction false} FirstPartialIn(devices: seq<(string, DeviceInfo)>, name: string)
    ensures FirstPartial(devices, name).Some? ==> exists i :: 0 <= i < |devices| && devices[i].1 == FirstPartial(devices, name).value
  {
    if devices != [] && !PartialMatch(devices[0].1, name) {
      FirstPartialIn(devices[1..], name);
      if FirstPartial(devices[1..], name).Some? {
        var i :| 0 <= i < |devices[1..]| && devices[1..][i].1 == FirstPartial(devices[1..], name).value;
        assert devices[i + 1].1 == FirstPartial(devices, name).value;
      }
    }
  }

  lemma {:induction false} ServiceCharacteristicsHold(services: seq<ServiceInfo>, s: ServiceInfo, c: CharacteristicInfo)
    requires s in services && c in s.characteristics
    ensures c in ServiceCharacteristics(services)
  {
    if services[0] != s {
      ServiceCharacteristicsHold(services[1..], s, c);
    }
  }

  lemma {:induction false} AllCharacteristicsHold(devices: seq<(string, DeviceInfo)>, d: DeviceInfo, c: CharacteristicInfo)
    requires (exists i :: 0 <= i < |devices| && devices[i].1 == d) && c in ServiceCharacteristics(d.services)
    ensures c in AllCharacteristics(devices)
  {
    if devices[0].1 != d {
      var i :| 0 <= i < |devices| && devices[i].1 == d;
      assert devices[1..][i - 1].1 == d;
      AllCharacteristicsHold(devices[1..], d, c);
    }
  }

  // ---------------------------------------------------------------------------
  // Decoding by data type

  datatype DataKind = FourByteDouble | FourByteInteger | FourByteFloat | CustomTemperature | STBattery

  /** The `when (characteristicInfo.dataType)` names. */
  const DATA_TYPES: seq<(string, DataKind)> := [
    ("4_byte_double", FourByteDouble), ("4_byte_integer", FourByteInteger),
    ("4_byte_float", FourByteFloat), ("custom_temperature", CustomTemperature),
    ("STBatteryStruct", STBattery)
  ]

  /** The shortest input each branch decodes. */
  function MinSize(k: DataKind): nat {
    match k
    case FourByteDouble | FourByteInteger | FourByteFloat => 4
    case CustomTemperature => 6
    case STBattery => 9
  }

  /** What `parseCharacteristicData` returns: the 4-byte `Int` as a `Double`,
      as itself or as a `Float` (each held as the `Int`), the map
      `{"temperature": raw}`, or the battery map of `parseSTBatteryStruct`. */
  datatype CharacteristicData =
    | AsDouble(intValue: int)
    | AsInteger(value: int)
    | AsFloat(intValue: int)
    | Temperature(temperature: int)
    | Battery(update: BatteryUpdate)

  /** The branch for a known data type. */
  function DecodeKind(k: DataKind, data: seq<byte>): (r: Option<CharacteristicData>)
    ensures r.None? <==> |data| < MinSize(k)
  {
    match k
    case FourByteDouble => if |data| >= 4 then Some(AsDouble(Parse4ByteInteger(data).value)) else None
    case FourByteInteger => if |data| >= 4 then Some(AsInteger(Parse4ByteInteger(data).value)) else None
    case FourByteFloat => if |data| >= 4 then Some(AsFloat(Parse4ByteInteger(data).value)) else None
    case CustomTemperature => if |data| >= 6 then Some(Temperature(TemperatureRaw(data))) else None
    case STBattery => if |data| >= 9 then Some(Battery(ParseSTBatteryStruct(data).value)) else None
  }

  /** `parseCharacteristicData` on the configuration as loaded. */
  function ParseData(config: Option<Configuration>, info: CharacteristicInfo, data: seq<byte>): Option<CharacteristicData> {
    if config.None? then None
    else
      match Lookup(info.dataType, DATA_TYPES)
      case None => None
      case Some(k) => DecodeKind(k, data)
  }

  /** No configuration, an unknown data type, or fewer bytes than the
      branch needs give null, and only these. */
  lemma ParseDataNull(config: Option<Configuration>, info: CharacteristicInfo, data: seq<byte>)
    ensures ParseData(config, info, data).None? <==>
      || config.None?
      || Lookup(info.dataType, DATA_TYPES).None?
      || |data| < MinSize(Lookup(info.dataType, DATA_TYPES).value)
  {
  }

  /** The integer branch agrees with `parse4ByteInteger`, the battery branch
      with `parseSTBatteryStruct`, and the temperature branch keeps the raw
      fold undivided: it is `parseCustomTemperature`'s `rawValue`, not its
      `temperature`. */
  lemma DecodeKindAgrees(data: seq<byte>)
    ensures |data| >= 4 ==> DecodeKind(FourByteInteger, data) == Some(AsInteger(Parse4ByteInteger(data).value))
    ensures |data| >= 6 ==> DecodeKind(CustomTemperature, data) == Some(Temperature(ParseCustomTemperature(data).value.rawValue))
    ensures |data| >= 9 ==> DecodeKind(STBattery, data) == Some(Battery(ParseSTBatteryStruct(data).value))
    ensures |data| == 6 ==> DecodeKind(CustomTemperature, data) == Some(Temperature(0))
  {
  }

  // ---------------------------------------------------------------------------
  // The manager

  /** `DeviceConfigurationManager`: the cached configuration and the string
      stored under `device_configuration` in the shared preferences. */
  class DeviceConfigurationManager {
    var currentConfig: Option<Configuration>
    var stored: Option<string>

    constructor(stored: Option<string>)
      ensures this.currentConfig.None? && this.stored == stored
    {
      this.currentConfig := None;
      this.stored := stored;
    }

    /** `serializeToJson`, a placeholder that ignores the configuration. */
    static function SerializeToJson(config: Configuration): string {
      "serialized_config"
    }

    /** `deserializeFromJson`, a placeholder that yields no configuration. */
    static function DeserializeFromJson(json: string): Option<Configuration> {
      None
    }

    /** `loadConfigFromStorage`: a stored string replaces the cache by its
        decoding. */
    method LoadConfigFromStorage()
      modifies this
      ensures stored == old(stored)
      ensures currentConfig == if stored.Some? then DeserializeFromJson(stored.value) else old(currentConfig)
    {
      if stored.Some? {
        currentConfig := DeserializeFromJson(stored.value);
      }
    }

    /** `getDeviceConfiguration`: loads from storage only while nothing is
        cached; as the decoder is a placeholder, the cache never gains a
        configuration this way. */
    method GetDeviceConfiguration() returns (r: Option<Configuration>)
      modifies this
      ensures stored == old(stored)
      ensures currentConfig == old(currentConfig) && r == currentConfig
    {
      if currentConfig.None? {
        LoadConfigFromStorage();
      }
      r := currentConfig;
    }

    /** `saveConfiguration`: caches the configuration and stores its serialization. */
    method SaveConfiguration(config: Configuration)
      modifies this
      ensures currentConfig == Some(config) && stored == Some(SerializeToJson(config))
    {
      currentConfig := Some(config);
      stored := Some(SerializeToJson(config));
    }

    /** `findDeviceConfig`. */
    method FindDeviceConfig(deviceName: Option<string>) returns (r: Option<DeviceInfo>)
      modifies this
      ensures currentConfig == old(currentConfig) && stored == old(stored)
      ensures r == if currentConfig.None? then None else FindDevice(currentConfig.value, deviceName)
    {
      var config := GetDeviceConfiguration();
      if config.None? {
        return None;
      }
      if deviceName.None? {
        return None;
      }
      var exact := ExactDevice(config.value.devices, deviceName.value);
      if exact.Some? {
        return exact;
      }
      return FirstPartial(config.value.devices, deviceName.value);
    }

    /** `findServiceAndCharacteristic`: the device, then nested loops over
        its services and their characteristics, with an early return. */
    method FindServiceAndCharacteristic(deviceName: Option<string>, serviceUuid: string, characteristicUuid: string)
      returns (r: Option<(ServiceInfo, CharacteristicInfo)>)
      modifies this
      ensures currentConfig == old(currentConfig) && stored == old(stored)
      ensures r == if currentConfig.None? || FindDevice(currentConfig.value, deviceName).None? then None
        else FindPair(FindDevice(currentConfig.value, deviceName).value.services, serviceUuid, characteristicUuid)
    {
      var device := FindDeviceConfig(deviceName);
      if device.None? {
        return None;
      }
      r := SearchPair(device.value.services, serviceUuid, characteristicUuid);
    }

    /** `findCharacteristicByUuid`: nested loops over every device, service
        and characteristic, with an early return. */
    method FindCharacteristicByUuid(characteristicUuid: string) returns (r: Option<CharacteristicInfo>)
      modifies this
      ensures currentConfig == old(currentConfig) && stored == old(stored)
      ensures r == if currentConfig.None? then None else FindInDevices(currentConfig.value.devices, characteristicUuid)
    {
      var config := GetDeviceConfiguration();
      if config.None? {
        return None;
      }
      r := SearchDevices(config.value.devices, characteristicUuid);
    }

    /** `parseCharacteristicData`; the device name and address it accepts
        play no part. */
    method ParseCharacteristicData(info: CharacteristicInfo, data: seq<byte>) returns (r: Option<CharacteristicData>)
      modifies this
      ensures currentConfig == old(currentConfig) && stored == old(stored)
      ensures r == ParseData(currentConfig, info, data)
    {
      var config := GetDeviceConfiguration();
      if config.None? {
        return None;
      }
      var kind := Lookup(info.dataType, DATA_TYPES);
      if kind.None? {
        return None;
      }
      r := DecodeKind(kind.value, data);
    }
  }

  /** The innermost loop of both searches: the first characteristic with
      an equal UUID, ignoring case. */
  method SearchCharacteristics(cs: seq<CharacteristicInfo>, uuid: string) returns (r: Option<CharacteristicInfo>)
    ensures r == FindInCharacteristics(cs, uuid)
  {
    for j := 0 to |cs|
      invariant forall k :: 0 <= k < j ==> !EqualsIgnoreCase(cs[k].uuid, uuid)
    {
      if EqualsIgnoreCase(cs[j].uuid, uuid) {
        FindInCharacteristicsIsFirst(cs, uuid, j);
        return Some(cs[j]);
      }
    }
    return None;
  }

  /** The device loop of `findCharacteristicByUuid`. */
  method SearchDevices(devices: seq<(string, DeviceInfo)>, uuid: string) returns (r: Option<CharacteristicInfo>)
    ensures r == FindInDevices(devices, uuid)
  {
    for d := 0 to |devices|
      invariant FindInDevices(devices[d..], uuid) == FindInDevices(devices, uuid)
    {
      assert devices[d..][0] == devices[d] && devices[d..][1..] == devices[d + 1..];
      var c := SearchServices(devices[d].1.services, uuid);
      if c.Some? {
        return c;
      }
    }
    return None;
  }

  /** The service loop of `findServiceAndCharacteristic`, over one device's services. */
  method SearchPair(services: seq<ServiceInfo>, serviceUuid: string, characteristicUuid: string)
    returns (r: Option<(ServiceInfo, CharacteristicInfo)>)
    ensures r == FindPair(services, serviceUuid, characteristicUuid)
  {
    for i := 0 to |services|
      invariant FindPair(services[i..], serviceUuid, characteristicUuid) == FindPair(services, serviceUuid, characteristicUuid)
    {
      assert services[i..][0] == services[i] && services[i..][1..] == services[i + 1..];
      var service := services[i];
      if EqualsIgnoreCase(service.uuid, serviceUuid) {
        var c := SearchCharacteristics(service.characteristics, characteristicUuid);
        if c.Some? {
          return Some((service, c.value));
        }
      }
    }
    return None;
  }

  /** The service loop of `findCharacteristicByUuid`, over one device's services. */
  method SearchServices(services: seq<ServiceInfo>, uuid: string) returns (r: Option<CharacteristicInfo>)
    ensures r == FindInServices(services, uuid)
  {
    for s := 0 to |services|
      invariant FindInServices(services[s..], uuid) == FindInServices(services, uuid)
    {
      assert services[s..][0] == services[s] && services[s..][1..] == services[s + 1..];
      var c := SearchCharacteristics(services[s].characteristics, uuid);
      if c.Some? {
        return c;
      }
    }
    return None;
  }

  /** The cache holds only what was saved: a manager built over any stored
      string finds nothing until a configuration is saved, and after a save
      every lookup reads that configuration. */
  method CacheOnlyHoldsSaved(stored: Option<string>, config: Configuration, name: Option<string>)
    returns (before: Option<DeviceInfo>, after: Option<DeviceInfo>)
    ensures before.None?
    ensures after == FindDevice(config, name)
  {
    var m := new DeviceConfigurationManager(stored);
    before := m.FindDeviceConfig(name);
    m.SaveConfiguration(config);
    after := m.FindDeviceConfig(name);
  }
}
