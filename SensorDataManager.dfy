/** SensorDataManager.kt: routes a characteristic's bytes to its configured
    decoder, reassembles Movesense IMU9 packets that arrive in two parts,
    enriches decoded maps with device and gateway facts, and hands them to
    the repository's data line and to MQTT. */
module SensorData {
  import opened Wrappers
  import opened Bytes
  import opened Values
  import opened Repositories
  import opened DeviceConfiguration

  /** The GATT Sensor Protocol packet types and the IMU9 reference id
      (`MoveSenseConstants.MS_GSP_IMU_ID`). */
  const PACKET_TYPE_DATA: byte := 2
  const PACKET_TYPE_DATA_PART2: byte := 3
  const MS_GSP_IMU_ID: byte := 99

  /** The data type that selects the Movesense reassembly path. */
  const MOVESENSE_READ := "movesense_read"

  /** `gatt.device`: its name, which Android may not know, and its address. */
  datatype Device = Device(name: Option<string>, address: string)

  /** What `enrichData` reads from the phone: the Bluetooth adapter's name
      and the battery percentage. */
  datatype Gateway = Gateway(adapterName: Option<string>, batteryLevel: int)

  /** Code outside this model: the Movesense decoders `parseMoveSenseChar`
      (None unless it reports `Success`) and `parseCombinedIMU9`, and the
      Kotlin `toString` of a payload. */
  datatype Foreign = Foreign(
    parseMoveSenseChar: seq<byte> -> Option<Value>,
    parseCombinedIMU9: seq<byte> -> Option<Value>,
    render: Value -> string)

  /** One `mqttManager.publish(topic, json)`, with the payload before its
      JSON serialization. */
  datatype Publication = Publication(topic: string, payload: Value)

  /** Where a payload comes from: the device, the gateway, and the
      repository's entry for the device when it has one. */
  datatype Origin = Origin(device: Device, gateway: Gateway, known: Option<BleDeviceState>)

  /** The state the manager changes: the pending first parts by address,
      the messages published so far, and the repository's data line. */
  datatype SensorState = SensorState(ongoing: map<string, seq<byte>>, published: seq<Publication>, latestData: string)

  // ---------------------------------------------------------------------------
  // Enrichment

  /** The keys `enrichData` writes into a map payload. */
  function EnrichedKeys(known: Option<BleDeviceState>): set<string> {
    {"deviceName", "deviceAddress", "gatewayName", "gatewayBattery"}
    + (if known.None? then {}
       else {"rssi", "tx_phy", "rx_phy"} + if known.value.appTagName != "" then {"APP_TAG_NAME"} else {})
  }

  /** `enrichData`: a map payload gains the device's name and address, the
      gateway's name and battery, and, when the repository knows the device,
      its RSSI, PHYs and non-empty tag; anything else passes unchanged. */
  function Enriched(parsed: Value, device: Device, gateway: Gateway, known: Option<BleDeviceState>): (r: Value)
    ensures !parsed.Obj? ==> r == parsed
    ensures parsed.Obj? ==> r.Obj? && r.fields.Keys == parsed.fields.Keys + EnrichedKeys(known)
    ensures parsed.Obj? ==> forall k :: k in parsed.fields && k !in EnrichedKeys(known) ==> r.fields[k] == parsed.fields[k]
    ensures parsed.Obj? ==>
      && r.fields["deviceName"] == Str(device.name.GetOr("Unknown"))
      && r.fields["deviceAddress"] == Str(device.address)
      && r.fields["gatewayName"] == Str(gateway.adapterName.GetOr("Unknown"))
      && r.fields["gatewayBattery"] == Num(gateway.batteryLevel)
    ensures parsed.Obj? && known.Some? ==>
      && r.fields["rssi"] == Num(known.value.rssi)
      && r.fields["tx_phy"] == Str(known.value.txPhy)
      && r.fields["rx_phy"] == Str(known.value.rxPhy)
      && (known.value.appTagName != "" ==> r.fields["APP_TAG_NAME"] == Str(known.value.appTagName))
  {
    if !parsed.Obj? then parsed
    else
      var base := parsed.fields["deviceName" := Str(device.name.GetOr("Unknown"))]
                               ["deviceAddress" := Str(device.address)]
                               ["gatewayName" := Str(gateway.adapterName.GetOr("Unknown"))]
                               ["gatewayBattery" := Num(gateway.batteryLevel)];
      if known.None? then Obj(base)
      else
        var withLink := base["rssi" := Num(known.value.rssi)]
                            ["tx_phy" := Str(known.value.txPhy)]
                            ["rx_phy" := Str(known.value.rxPhy)];
        if known.value.appTagName == "" then Obj(withLink)
        else Obj(withLink["APP_TAG_NAME" := Str(known.value.appTagName)])
  }

  /** The enrichment of a payload from its origin. */
  function Enrich(v: Value, origin: Origin): Value {
    Enriched(v, origin.device, origin.gateway, origin.known)
  }

  /** `enrichData`, filling a copy of the map one key at a time. */
  method EnrichData(parsed: Value, device: Device, gateway: Gateway, known: Option<BleDeviceState>) returns (r: Value)
    ensures r == Enriched(parsed, device, gateway, known)
  {
    if !parsed.Obj? {
      return parsed;
    }
    var data := parsed.fields;
    data := data["deviceName" := Str(device.name.GetOr("Unknown"))];
    data := data["deviceAddress" := Str(device.address)];
    data := data["gatewayName" := Str(gateway.adapterName.GetOr("Unknown"))];
    data := data["gatewayBattery" := Num(gateway.batteryLevel)];
    if known.Some? {
      data := data["rssi" := Num(known.value.rssi)];
      data := data["tx_phy" := Str(known.value.txPhy)];
      data := data["rx_phy" := Str(known.value.rxPhy)];
      if known.value.appTagName != "" {
        data := data["APP_TAG_NAME" := Str(known.value.appTagName)];
      }
    }
    r := Obj(data);
  }

  /** `publishParsedData`, once the payload is enriched: the data line
      becomes "<name>: <payload>" and the payload goes out on the topic. */
  function Published(s: SensorState, name: string, topic: string, payload: Value, foreign: Foreign): (r: SensorState)
    ensures r.ongoing == s.ongoing
    ensures r.published == s.published + [Publication(topic, payload)]
    ensures r.latestData == name + ": " + foreign.render(payload)
  {
    s.(published := s.published + [Publication(topic, payload)], latestData := name + ": " + foreign.render(payload))
  }

  // ---------------------------------------------------------------------------
  // Movesense two-part packets

  /** `handleMoveSenseData` reads byte 0, and byte 1 of a data packet;
      anything shorter throws `ArrayIndexOutOfBoundsException`. */
  predicate MoveSenseInBounds(value: seq<byte>) {
    |value| >= 1 && (value[0] == PACKET_TYPE_DATA ==> |value| >= 2)
  }

  /** The IMU9 buffer: the whole first part, then the second part without
      its two header bytes. */
  function Combine(firstPart: seq<byte>, value: seq<byte>): (r: seq<byte>)
    ensures |r| >= |firstPart| && r[..|firstPart|] == firstPart
    ensures |value| >= 2 ==> |r| == |firstPart| + |value| - 2 && r[|firstPart|..] == value[2..]
    ensures |value| < 2 ==> r == firstPart
  {
    if |value| >= 2 then firstPart + value[2..] else firstPart
  }

  /** `handleMoveSenseData` on in-bounds bytes: an IMU9 data packet is kept
      as the pending first part for the address (replacing an earlier one);
      another data packet is decoded alone; a part-2 packet takes the
      pending part out and decodes the join; other types change nothing. */
  function MoveSenseStep(s: SensorState, info: CharacteristicInfo, value: seq<byte>, origin: Origin, foreign: Foreign): (r: SensorState)
    requires MoveSenseInBounds(value)
    ensures value[0] == PACKET_TYPE_DATA && value[1] == MS_GSP_IMU_ID ==> r == s.(ongoing := s.ongoing[origin.device.address := value])
    ensures value[0] == PACKET_TYPE_DATA_PART2 ==> r.ongoing == s.ongoing - {origin.device.address}
    ensures value[0] == PACKET_TYPE_DATA_PART2 && origin.device.address !in s.ongoing ==> r == s
    ensures value[0] != PACKET_TYPE_DATA && value[0] != PACKET_TYPE_DATA_PART2 ==> r == s
    ensures !(value[0] == PACKET_TYPE_DATA && value[1] == MS_GSP_IMU_ID) ==> r.ongoing.Keys <= s.ongoing.Keys
    ensures forall a :: a != origin.device.address ==> (a in r.ongoing <==> a in s.ongoing)
    ensures forall a :: a != origin.device.address && a in s.ongoing ==> r.ongoing[a] == s.ongoing[a]
  {
    if value[0] == PACKET_TYPE_DATA then
      if value[1] == MS_GSP_IMU_ID then s.(ongoing := s.ongoing[origin.device.address := value])
      else match foreign.parseMoveSenseChar(value)
        case None => s
        case Some(data) => Published(s, info.name, info.mqttTopic, Enrich(data, origin), foreign)
    else if value[0] == PACKET_TYPE_DATA_PART2 then
      if origin.device.address !in s.ongoing then s
      else
        var rest := s.(ongoing := s.ongoing - {origin.device.address});
        match foreign.parseCombinedIMU9(Combine(s.ongoing[origin.device.address], value))
        case None => rest
        case Some(data) => Published(rest, info.name, info.mqttTopic, Enrich(data, origin), foreign)
    else s
  }

  /** A part-2 packet decodes exactly the pending first part joined to its
      own data bytes. */
  lemma SecondPartCombines(s: SensorState, info: CharacteristicInfo, value: seq<byte>, origin: Origin, foreign: Foreign)
    requires MoveSenseInBounds(value) && value[0] == PACKET_TYPE_DATA_PART2 && origin.device.address in s.ongoing
    ensures var combined := Combine(s.ongoing[origin.device.address], value);
      && (|value| >= 2 ==> |combined| == |s.ongoing[origin.device.address]| + |value| - 2)
      && MoveSenseStep(s, info, value, origin, foreign) ==
         match foreign.parseCombinedIMU9(combined)
         case None => s.(ongoing := s.ongoing - {origin.device.address})
         case Some(data) => Published(s.(ongoing := s.ongoing - {origin.device.address}), info.name, info.mqttTopic, Enrich(data, origin), foreign)
  {
  }

  /** A pending part is used at most once: a second part-2 packet for the
      same address, with no IMU9 packet in between, does nothing. */
  lemma PendingUsedOnce(s: SensorState, info: CharacteristicInfo, v1: seq<byte>, v2: seq<byte>, origin: Origin, foreign: Foreign)
    requires MoveSenseInBounds(v1) && v1[0] == PACKET_TYPE_DATA_PART2
    requires MoveSenseInBounds(v2) && v2[0] == PACKET_TYPE_DATA_PART2
    ensures var t := MoveSenseStep(s, info, v1, origin, foreign);
      MoveSenseStep(t, info, v2, origin, foreign) == t
  {
  }

  // ---------------------------------------------------------------------------
  // Routing

  /** Where `processCharacteristicData` sends the bytes. */
  datatype Routing = MoveSense(info: CharacteristicInfo) | Parse(info: CharacteristicInfo) | Ignore

  /** The device-specific pair (for the device's name, "Unknown" when
      Android has none), and only when there is none the UUID-only lookup;
      the Movesense path is taken only for a device-specific pair. */
  function RouteOf(config: Option<Configuration>, deviceName: string, serviceUuid: string, characteristicUuid: string): Routing {
    var pair := if config.None? then None
      else match FindDevice(config.value, Some(deviceName))
        case None => None
        case Some(device) => FindPair(device.services, serviceUuid, characteristicUuid);
    if pair.Some? then
      if pair.value.1.dataType == MOVESENSE_READ then MoveSense(pair.value.1) else Parse(pair.value.1)
    else if config.None? then Ignore
    else match FindInDevices(config.value.devices, characteristicUuid)
      case None => Ignore
      case Some(c) => Parse(c)
  }

  /** The route follows the precedence of `ResolveCharacteristic`; a
      "movesense_read" entry found by UUID only is decoded like any other. */
  lemma RouteFollowsResolution(config: Option<Configuration>, deviceName: string, serviceUuid: string, characteristicUuid: string)
    ensures var route := RouteOf(config, deviceName, serviceUuid, characteristicUuid);
      var resolved := ResolveCharacteristic(config, deviceName, serviceUuid, characteristicUuid);
      && (route.Ignore? <==> resolved.None?)
      && (!route.Ignore? ==> route.info == resolved.value)
      && (route.MoveSense? ==> route.info.dataType == MOVESENSE_READ)
      && (route.MoveSense? <==>
          config.Some? && FindDevice(config.value, Some(deviceName)).Some? &&
          FindPair(FindDevice(config.value, Some(deviceName)).value.services, serviceUuid, characteristicUuid).Some? &&
          resolved.value.dataType == MOVESENSE_READ)
  {
  }

  /** `parseCharacteristicData`'s result as the `Any` it is in Kotlin. */
  function DataValue(d: CharacteristicData): (r: Value)
    ensures d.AsInteger? ==> r == Num(d.value)
    ensures d.Temperature? ==> r == Obj(map["temperature" := Num(d.temperature)])
    ensures d.Battery? ==> r.Obj? && r.fields.Keys == {"timestamp", "batteryLevel", "voltage", "current", "status"}
  {
    match d
    case AsDouble(i) => IntAsDouble(i)
    case AsInteger(v) => Num(v)
    case AsFloat(i) => IntAsFloat(i)
    case Temperature(t) => Obj(map["temperature" := Num(t)])
    case Battery(u) => Obj(map["timestamp" := Num(u.timestamp), "batteryLevel" := Tenths(u.batteryLevelRaw),
                              "voltage" := Num(u.voltage), "current" := Num(u.current), "status" := Num(u.status as int)])
  }

  /** `processCharacteristicData` for one route, with payloads
      enriched from `origin`. */
  function ProcessStep(s: SensorState, config: Option<Configuration>, route: Routing, value: seq<byte>,
                       origin: Origin, foreign: Foreign): (r: SensorState)
    requires route.MoveSense? ==> MoveSenseInBounds(value)
    ensures route.Ignore? ==> r == s
    ensures !route.MoveSense? ==> r.ongoing == s.ongoing
    ensures route.Parse? && ParseData(config, route.info, value).None? ==> r == s
    ensures route.Parse? && ParseData(config, route.info, value).Some? ==>
      r.published == s.published + [Publication(route.info.mqttTopic, Enrich(DataValue(ParseData(config, route.info, value).value), origin))]
  {
    match route
    case Ignore => s
    case MoveSense(info) => MoveSenseStep(s, info, value, origin, foreign)
    case Parse(info) =>
      match ParseData(config, info, value)
      case None => s
      case Some(d) => Published(s, info.name, info.mqttTopic, Enrich(DataValue(d), origin), foreign)
  }

  // ---------------------------------------------------------------------------
  // The manager

  class SensorDataManager {
    const deviceConfigManager: DeviceConfigurationManager
    const repository: BleRepository
    const foreign: Foreign
    var ongoingDataUpdates: map<string, seq<byte>>
    var published: seq<Publication>

    constructor(deviceConfigManager: DeviceConfigurationManager, repository: BleRepository, foreign: Foreign)
      ensures this.deviceConfigManager == deviceConfigManager && this.repository == repository && this.foreign == foreign
      ensures ongoingDataUpdates == map[] && published == []
    {
      this.deviceConfigManager := deviceConfigManager;
      this.repository := repository;
      this.foreign := foreign;
      ongoingDataUpdates := map[];
      published := [];
    }

    function State(): SensorState
      reads this, repository
    {
      SensorState(ongoingDataUpdates, published, repository.latestData)
    }

    /** The repository's entry for the device, if any. */
    function Known(address: string): Option<BleDeviceState>
      reads repository
    {
      if address in repository.scannedDevices then Some(repository.scannedDevices[address]) else None
    }

    /** The origin `publishParsedData` enriches a payload from. */
    function OriginOf(device: Device, gateway: Gateway): Origin
      reads repository
    {
      Origin(device, gateway, Known(device.address))
    }

    /** `publishParsedData`. */
    method PublishParsedData(name: string, topic: string, data: Value, device: Device, gateway: Gateway)
      modifies this, repository
      ensures State() == Published(old(State()), name, topic, Enriched(data, device, gateway, old(Known(device.address))), foreign)
      ensures repository.scannedDevices == old(repository.scannedDevices) && repository.statusText == old(repository.statusText)
    {
      var enriched := EnrichData(data, device, gateway, Known(device.address));
      repository.UpdateData(name + ": " + foreign.render(enriched));
      published := published + [Publication(topic, enriched)];
    }

    /** `handleMoveSenseData`; `thrown` reports the index exception of a
        too-short packet, which leaves everything as it was. */
    method HandleMoveSenseData(device: Device, gateway: Gateway, value: seq<byte>, info: CharacteristicInfo) returns (thrown: bool)
      modifies this, repository
      ensures thrown <==> !MoveSenseInBounds(value)
      ensures thrown ==> State() == old(State())
      ensures !thrown ==> State() == MoveSenseStep(old(State()), info, value, old(OriginOf(device, gateway)), foreign)
      ensures repository.scannedDevices == old(repository.scannedDevices) && repository.statusText == old(repository.statusText)
    {
      if |value| < 1 {
        return true;
      }
      var packetType := value[0];
      if packetType == PACKET_TYPE_DATA {
        if |value| < 2 {
          return true;
        }
        var reference := value[1];
        if reference == MS_GSP_IMU_ID {
          ongoingDataUpdates := ongoingDataUpdates[device.address := value];
        } else {
          var result := foreign.parseMoveSenseChar(value);
          if result.Some? {
            PublishParsedData(info.name, info.mqttTopic, result.value, device, gateway);
          }
        }
      } else if packetType == PACKET_TYPE_DATA_PART2 {
        if device.address in ongoingDataUpdates {
          var firstPart := ongoingDataUpdates[device.address];
          ongoingDataUpdates := ongoingDataUpdates - {device.address};
          var combined := Combine(firstPart, value);
          var parsed := foreign.parseCombinedIMU9(combined);
          if parsed.Some? {
            PublishParsedData(info.name, info.mqttTopic, parsed.value, device, gateway);
          }
        }
      }
      return false;
    }

    /** The decode-then-publish step both lookups of
        `processCharacteristicData` share. */
    method ParseAndPublish(info: CharacteristicInfo, value: seq<byte>, device: Device, gateway: Gateway)
      modifies this, repository, deviceConfigManager
      ensures deviceConfigManager.currentConfig == old(deviceConfigManager.currentConfig)
      ensures deviceConfigManager.stored == old(deviceConfigManager.stored)
      ensures repository.scannedDevices == old(repository.scannedDevices) && repository.statusText == old(repository.statusText)
      ensures State() == ProcessStep(old(State()), deviceConfigManager.currentConfig, Parse(info), value,
                                     old(OriginOf(device, gateway)), foreign)
    {
      var parsedData := deviceConfigManager.ParseCharacteristicData(info, value);
      if parsedData.Some? {
        PublishParsedData(info.name, info.mqttTopic, DataValue(parsedData.value), device, gateway);
      }
    }

    /** `processCharacteristicData`: the device-specific lookup, the
        Movesense path for its "movesense_read" entries, and the UUID-only
        fallback when the device has no matching pair. */
    method ProcessCharacteristicData(device: Device, gateway: Gateway, value: seq<byte>, serviceUuid: string, characteristicUuid: string)
      returns (thrown: bool)
      modifies this, repository, deviceConfigManager
      ensures deviceConfigManager.currentConfig == old(deviceConfigManager.currentConfig)
      ensures deviceConfigManager.stored == old(deviceConfigManager.stored)
      ensures repository.scannedDevices == old(repository.scannedDevices) && repository.statusText == old(repository.statusText)
      ensures var route := RouteOf(deviceConfigManager.currentConfig, device.name.GetOr("Unknown"), serviceUuid, characteristicUuid);
        && (thrown <==> route.MoveSense? && !MoveSenseInBounds(value))
        && (thrown ==> State() == old(State()))
        && (!thrown ==> State() == ProcessStep(old(State()), deviceConfigManager.currentConfig, route, value,
                                               old(OriginOf(device, gateway)), foreign))
    {
      var deviceName := device.name.GetOr("Unknown");
      var configPair := deviceConfigManager.FindServiceAndCharacteristic(Some(deviceName), serviceUuid, characteristicUuid);
      if configPair.Some? {
        var characteristicInfo := configPair.value.1;
        if characteristicInfo.dataType == MOVESENSE_READ {
          thrown := HandleMoveSenseData(device, gateway, value, characteristicInfo);
          return;
        }
        ParseAndPublish(characteristicInfo, value, device, gateway);
      } else {
        var knownChar := deviceConfigManager.FindCharacteristicByUuid(characteristicUuid);
        if knownChar.Some? {
          ParseAndPublish(knownChar.value, value, device, gateway);
        }
      }
      return false;
    }
  }
}
