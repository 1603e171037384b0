/** BleAndMqttService.kt: the foreground service's own bookkeeping. It
    turns CCCD notifications on and off through the BLE manager's descriptor
    queue, keeps the table of Movesense whiteboard subscriptions
    (`mSubscriptions`, keyed by measure path), and rewrites each whiteboard
    notification before it is shown and published. */
module MqttService {
  import opened Wrappers
  import opened Bytes
  import opened Values
  import opened BleCharacteristics
  import opened Repositories
  import opened DeviceConfiguration
  import opened BleManagement
  import opened SensorData

  // ---------------------------------------------------------------------------
  // Turning notifications on and off

  /** A characteristic of a discovered GATT service: its UUID as
      `uuid.toString()` prints it, its property bits, and whether it has a
      CCCD (`getDescriptor(CCCD)` is not null). */
  datatype RemoteCharacteristic = RemoteCharacteristic(uuid: string, properties: nat, hasCccd: bool)

  datatype RemoteService = RemoteService(uuid: string, characteristics: seq<RemoteCharacteristic>)

  /** `characteristics.find { it.uuid.toString() == uuid }`: the first with
      exactly that UUID. */
  function FindExact(cs: seq<RemoteCharacteristic>, uuid: string): (r: Option<RemoteCharacteristic>)
    ensures r.Some? ==> r.value in cs && r.value.uuid == uuid
    ensures r.None? ==> forall c :: c in cs ==> c.uuid != uuid
  {
    if cs == [] then None
    else if cs[0].uuid == uuid then Some(cs[0])
    else FindExact(cs[1..], uuid)
  }

  /** The characteristic found is the first with the UUID. */
  lemma {:induction false} FindExactIsFirst(cs: seq<RemoteCharacteristic>, uuid: string, i: nat)
    requires i < |cs| && cs[i].uuid == uuid
    ensures FindExact(cs, uuid).Some?
    ensures (forall j :: 0 <= j < i ==> cs[j].uuid != uuid) ==> FindExact(cs, uuid) == Some(cs[i])
  {
    if i > 0 && cs[0].uuid != uuid {
      FindExactIsFirst(cs[1..], uuid, i - 1);
      if forall j :: 0 <= j < i ==> cs[j].uuid != uuid {
        assert forall j :: 0 <= j < i - 1 ==> cs[1..][j].uuid != uuid by {
          forall j | 0 <= j < i - 1 ensures cs[1..][j].uuid != uuid {
            assert cs[1..][j] == cs[j + 1];
          }
        }
      }
    }
  }

  /** The notify test `enableNotifications` applies: PROPERTY_NOTIFY only,
      not indicate. */
  predicate Notifies(c: RemoteCharacteristic) {
    BitAnd(c.properties, PROPERTY_NOTIFY) != 0
  }

  /** The CCCD write `disableNotifications` queues for one service: one for
      the service's matching characteristic when it has a CCCD. */
  function ServiceDisable(s: RemoteService, uuid: string): (r: seq<GattDescriptor>)
    ensures |r| <= 1
    ensures r != [] <==> FindExact(s.characteristics, uuid).Some? && FindExact(s.characteristics, uuid).value.hasCccd
    ensures r != [] ==> r[0] == GattDescriptor(CCCD_UUID, DISABLE_NOTIFICATION_VALUE, uuid, s.uuid)
  {
    match FindExact(s.characteristics, uuid)
    case None => []
    case Some(c) => if c.hasCccd then [GattDescriptor(CCCD_UUID, DISABLE_NOTIFICATION_VALUE, c.uuid, s.uuid)] else []
  }

  /** The CCCD write `enableNotifications` queues for one service: as for
      disabling, but only when the matching characteristic notifies. */
  function ServiceEnable(s: RemoteService, uuid: string): (r: seq<GattDescriptor>)
    ensures |r| <= 1
    ensures r != [] <==>
      FindExact(s.characteristics, uuid).Some? && Notifies(FindExact(s.characteristics, uuid).value) && FindExact(s.characteristics, uuid).value.hasCccd
    ensures r != [] ==> r[0] == GattDescriptor(CCCD_UUID, ENABLE_NOTIFICATION_VALUE, uuid, s.uuid)
  {
    match FindExact(s.characteristics, uuid)
    case None => []
    case Some(c) =>
      if Notifies(c) && c.hasCccd then [GattDescriptor(CCCD_UUID, ENABLE_NOTIFICATION_VALUE, c.uuid, s.uuid)] else []
  }

  /** Enabling writes what disabling writes, with the ENABLE value, for a
      matching characteristic that notifies, and nothing for one that does
      not. */
  lemma EnableVersusDisable(s: RemoteService, uuid: string)
    ensures var found := FindExact(s.characteristics, uuid);
      ServiceEnable(s, uuid) ==
        if found.Some? && Notifies(found.value) then
          (if ServiceDisable(s, uuid) == [] then [] else [ServiceDisable(s, uuid)[0].(value := ENABLE_NOTIFICATION_VALUE)])
        else []
  {
  }

  /** The writes of the `gatt.services.forEach` loops, service by service. */
  function EnableWrites(services: seq<RemoteService>, uuid: string): seq<GattDescriptor> {
    if services == [] then [] else EnableWrites(services[..|services| - 1], uuid) + ServiceEnable(services[|services| - 1], uuid)
  }

  function DisableWrites(services: seq<RemoteService>, uuid: string): seq<GattDescriptor> {
    if services == [] then [] else DisableWrites(services[..|services| - 1], uuid) + ServiceDisable(services[|services| - 1], uuid)
  }

  /** Every write queued to enable is an ENABLE write of the CCCD, and there
      are never more than disabling queues. */
  lemma {:induction false} EnableWritesFacts(services: seq<RemoteService>, uuid: string)
    ensures |EnableWrites(services, uuid)| <= |DisableWrites(services, uuid)| <= |services|
    ensures forall d :: d in EnableWrites(services, uuid) ==> d.uuid == CCCD_UUID && d.value == ENABLE_NOTIFICATION_VALUE && d.characteristicUuid == uuid
    ensures forall d :: d in DisableWrites(services, uuid) ==>
      d.uuid == CCCD_UUID && d.value == DISABLE_NOTIFICATION_VALUE && d.characteristicUuid == uuid
  {
    if services != [] {
      var init := services[..|services| - 1];
      var last := services[|services| - 1];
      EnableWritesFacts(init, uuid);
      EnableVersusDisable(last, uuid);
    }
  }

  /** `bleManager.queueDescriptorWrite` for each write in turn. */
  function QueueAll(m: ConnectionMaps, a: string, ds: seq<GattDescriptor>): ConnectionMaps {
    if ds == [] then m else ServeDescriptors(EnqueueDescriptor(QueueAll(m, a, ds[..|ds| - 1]), a, ds[|ds| - 1]), a)
  }

  /** Queuing keeps the FIFO invariant. */
  lemma {:induction false} QueueAllKeeps(m: ConnectionMaps, a: string, ds: seq<GattDescriptor>)
    requires QueuesOk(m)
    ensures QueuesOk(QueueAll(m, a, ds))
    ensures QueueAll(m, a, ds).connections == m.connections
  {
    if ds != [] {
      QueueAllKeeps(m, a, ds[..|ds| - 1]);
      var m1 := QueueAll(m, a, ds[..|ds| - 1]);
      EnqueueDescriptorKeeps(m1, a, ds[|ds| - 1]);
      ServeDescriptorsKeeps(EnqueueDescriptor(m1, a, ds[|ds| - 1]), a);
    }
  }

  // ---------------------------------------------------------------------------
  // Whiteboard notifications

  /** `getInt(i)` succeeds on every sample (a number). */
  predicate AllNums(samples: seq<Value>) {
    forall i :: 0 <= i < |samples| ==> samples[i].Num?
  }

  /** The rewritten `Samples`: each sample with its own timestamp, 8 ms
      after the previous one. */
  function Stamped(samples: seq<Value>, base: int): seq<Value> {
    seq(|samples|, i requires 0 <= i < |samples| => Obj(map["value" := samples[i], "stimestamp" := Num(base + 8 * i)]))
  }

  /** The loop that builds `newSamplesArray`; a sample that is not a number
      makes `getInt` throw. */
  method RewriteSamples(samples: seq<Value>, base: int) returns (r: Option<seq<Value>>)
    ensures r.None? <==> !AllNums(samples)
    ensures r.Some? ==> |r.value| == |samples|
    ensures r.Some? ==> forall i :: 0 <= i < |samples| ==>
      r.value[i] == Obj(map["value" := samples[i], "stimestamp" := Num(base + 8 * i)])
    ensures r.Some? ==> r.value == Stamped(samples, base)
  {
    var newSamples: seq<Value> := [];
    var i := 0;
    while i < |samples|
      invariant 0 <= i <= |samples|
      invariant |newSamples| == i
      invariant forall j :: 0 <= j < i ==> samples[j].Num?
      invariant forall j :: 0 <= j < i ==> newSamples[j] == Obj(map["value" := samples[j], "stimestamp" := Num(base + 8 * j)])
    {
      if !samples[i].Num? {
        return None;
      }
      var sampleValue := samples[i].n;
      var calculatedTimestamp := base + 8 * i;
      var sampleObj := map["value" := Num(sampleValue), "stimestamp" := Num(calculatedTimestamp)];
      newSamples := newSamples + [Obj(sampleObj)];
      i := i + 1;
    }
    return Some(newSamples);
  }

  /** What a subscription's listener captured: the serial, the device
      address, the measure name and its topic. */
  datatype MdsSubscription = MdsSubscription(
    uri: string, contract: string, serial: string, address: string, measureName: string, mqttTopic: Option<string>)

  const MDS_EVENT_LISTENER := "suunto://MDS/EventListener"

  /** The four keys every whiteboard payload gains. */
  function MovesenseEnriched(fields: map<string, Value>, serial: string, address: string, gateway: Gateway): (r: map<string, Value>)
    ensures r.Keys == fields.Keys + {"deviceName", "deviceAddress", "gatewayName", "gatewayBattery"}
    ensures r["deviceName"] == Str("Movesense " + serial) && r["deviceAddress"] == Str(address)
    ensures r["gatewayName"] == Str(gateway.adapterName.GetOr("Unknown")) && r["gatewayBattery"] == Num(gateway.batteryLevel)
    ensures forall k :: k in fields && k !in {"deviceName", "deviceAddress", "gatewayName", "gatewayBattery"} ==> r[k] == fields[k]
  {
    fields["deviceName" := Str("Movesense " + serial)]["deviceAddress" := Str(address)]
          ["gatewayName" := Str(gateway.adapterName.GetOr("Unknown"))]["gatewayBattery" := Num(gateway.batteryLevel)]
  }

  /** `onNotification`'s payload, or None where org.json throws: the data is
      not an object, `Body` is not an object, `Samples` is not an array,
      `Timestamp` is not a number, or a sample is not a number. */
  function NotificationPayload(data: Value, serial: string, address: string, gateway: Gateway): (r: Option<Value>)
    ensures !data.Obj? ==> r.None?
    ensures r.Some? ==> r.value.Obj? && r.value.fields.Keys == MovesenseEnriched(data.fields, serial, address, gateway).Keys
    ensures r.Some? ==> forall k :: k in r.value.fields && k != "Body" ==>
      r.value.fields[k] == MovesenseEnriched(data.fields, serial, address, gateway)[k]
    ensures data.Obj? && ("Body" !in data.fields || (data.fields["Body"].Obj? && "Samples" !in data.fields["Body"].fields)) ==>
      r == Some(Obj(MovesenseEnriched(data.fields, serial, address, gateway)))
  {
    if !data.Obj? then None
    else
      var m := MovesenseEnriched(data.fields, serial, address, gateway);
      if "Body" !in m then Some(Obj(m))
      else
        var body := m["Body"];
        if !body.Obj? then None
        else if "Samples" !in body.fields then Some(Obj(m))
        else
          var samples := body.fields["Samples"];
          if !samples.Arr? then None
          else if "Timestamp" !in body.fields || !body.fields["Timestamp"].Num? then None
          else if !AllNums(samples.items) then None
          else Some(Obj(m["Body" := Obj(body.fields["Samples" := Arr(Stamped(samples.items, body.fields["Timestamp"].n))])]))
  }

  /** When the body has samples, the rewritten array is as long as the
      original and sample i is stamped Timestamp + 8 i. */
  lemma SamplesRestamped(data: Value, serial: string, address: string, gateway: Gateway)
    requires data.Obj? && "Body" in data.fields && data.fields["Body"].Obj?
    requires var body := data.fields["Body"].fields;
      "Samples" in body && body["Samples"].Arr? && "Timestamp" in body && body["Timestamp"].Num? && AllNums(body["Samples"].items)
    ensures var body := data.fields["Body"].fields;
      var samples := body["Samples"].items;
      var r := NotificationPayload(data, serial, address, gateway);
      && r.Some?
      && r.value.fields["Body"].Obj?
      && r.value.fields["Body"].fields.Keys == body.Keys
      && r.value.fields["Body"].fields["Samples"].Arr?
      && |r.value.fields["Body"].fields["Samples"].items| == |samples|
      && (forall i :: 0 <= i < |samples| ==>
            r.value.fields["Body"].fields["Samples"].items[i]
              == Obj(map["value" := samples[i], "stimestamp" := Num(body["Timestamp"].n + 8 * i)]))
  {
  }

  /** The listener's rewriting of the payload, step by step. */
  method BuildPayload(data: Value, serial: string, address: string, gateway: Gateway) returns (r: Option<Value>)
    ensures r == NotificationPayload(data, serial, address, gateway)
  {
    if !data.Obj? {
      return None;
    }
    var mutableData := data.fields;
    mutableData := mutableData["deviceName" := Str("Movesense " + serial)];
    mutableData := mutableData["deviceAddress" := Str(address)];
    mutableData := mutableData["gatewayName" := Str(gateway.adapterName.GetOr("Unknown"))];
    mutableData := mutableData["gatewayBattery" := Num(gateway.batteryLevel)];
    if "Body" in mutableData {
      var body := mutableData["Body"];
      if !body.Obj? {
        return None;
      }
      if "Samples" in body.fields {
        var samplesArray := body.fields["Samples"];
        if !samplesArray.Arr? {
          return None;
        }
        if "Timestamp" !in body.fields || !body.fields["Timestamp"].Num? {
          return None;
        }
        var baseTimestamp := body.fields["Timestamp"].n;
        var newSamplesArray := RewriteSamples(samplesArray.items, baseTimestamp);
        if newSamplesArray.None? {
          return None;
        }
        mutableData := mutableData["Body" := Obj(body.fields["Samples" := Arr(newSamplesArray.value)])];
      }
    }
    return Some(Obj(mutableData));
  }

  // ---------------------------------------------------------------------------
  // The subscription table

  /** A configured whiteboard measure as `findMeasurePath` returns it. */
  datatype WhiteboardMeasure = WhiteboardMeasure(path: string, methods: seq<string>, mqttTopic: Option<string>)

  /** The lookups `DeviceConfigurationManager` offers beyond
      DeviceConfiguration.kt: `findConfChar` and `findMeasurePath`, each
      given the device name, and the address or the characteristic name. */
  datatype ConfigLookups = ConfigLookups(
    findConfChar: (string, string, string) -> Option<CharacteristicInfo>,
    findMeasurePath: (string, string, string) -> Option<WhiteboardMeasure>)

  /** The subscription `Mds.subscribe` returns for a measure. */
  function NewSubscription(serial: string, measure: WhiteboardMeasure, address: string, measureName: string): (r: MdsSubscription)
    ensures r.uri == MDS_EVENT_LISTENER && r.contract == "{\"Uri\": \"" + serial + measure.path + "\"}"
    ensures r.serial == serial && r.address == address && r.measureName == measureName && r.mqttTopic == measure.mqttTopic
  {
    MdsSubscription(MDS_EVENT_LISTENER, "{\"Uri\": \"" + serial + measure.path + "\"}", serial, address, measureName, measure.mqttTopic)
  }

  /** The subscription table and the repository's devices. */
  datatype SubscriptionState = SubscriptionState(subscriptions: map<string, MdsSubscription>, devices: map<string, BleDeviceState>)

  /** `enableSubscriptionForWhiteBoardMeasure` once its lookups are done:
      only with a connection, a configured measure, a known Movesense serial
      and a "subscribe" method is the subscription stored under the path,
      replacing any earlier one, and the measure marked subscribed. */
  function Subscribe(s: SubscriptionState, connected: bool, measure: Option<WhiteboardMeasure>, serial: Option<string>,
                     address: string, measureName: string): (r: SubscriptionState)
    ensures r.subscriptions.Keys <= s.subscriptions.Keys + (if measure.Some? then {measure.value.path} else {})
    ensures (connected && measure.Some? && serial.Some? && "subscribe" in measure.value.methods) ==>
      && r.subscriptions == s.subscriptions[measure.value.path := NewSubscription(serial.value, measure.value, address, measureName)]
      && r.devices == Update(s.devices, address, WhiteboardSubscriptionState(measureName, true))
    ensures !(connected && measure.Some? && serial.Some? && "subscribe" in measure.value.methods) ==> r == s
  {
    if !connected || measure.None? || serial.None? then s
    else if "subscribe" in measure.value.methods then
      SubscriptionState(s.subscriptions[measure.value.path := NewSubscription(serial.value, measure.value, address, measureName)],
                        Update(s.devices, address, WhiteboardSubscriptionState(measureName, true)))
    else s
  }

  /** `disableSubscriptionForWhiteBoardMeasure`: only a stored subscription
      is removed, and only then is the measure marked unsubscribed. */
  function Unsubscribe(s: SubscriptionState, connected: bool, measure: Option<WhiteboardMeasure>,
                       address: string, measureName: string): (r: SubscriptionState)
    ensures (connected && measure.Some? && measure.value.path in s.subscriptions) ==>
      && r.subscriptions == s.subscriptions - {measure.value.path}
      && r.devices == Update(s.devices, address, WhiteboardSubscriptionState(measureName, false))
    ensures !(connected && measure.Some? && measure.value.path in s.subscriptions) ==> r == s
  {
    if connected && measure.Some? && measure.value.path in s.subscriptions then
      SubscriptionState(s.subscriptions - {measure.value.path}, Update(s.devices, address, WhiteboardSubscriptionState(measureName, false)))
    else s
  }

  /** Subscribing twice to a path keeps the later subscription only. */
  lemma SubscribeOverwrites(s: SubscriptionState, measure: WhiteboardMeasure, serial1: string, serial2: string,
                            address: string, measureName: string)
    requires "subscribe" in measure.methods
    ensures var t := Subscribe(Subscribe(s, true, Some(measure), Some(serial1), address, measureName),
                               true, Some(measure), Some(serial2), address, measureName);
      t.subscriptions == s.subscriptions[measure.path := NewSubscription(serial2, measure, address, measureName)]
  {
  }

  /** Unsubscribing after subscribing to a fresh path gives back the table
      as it was, with the measure marked unsubscribed. */
  lemma SubscribeThenUnsubscribe(s: SubscriptionState, measure: WhiteboardMeasure, serial: string, address: string, measureName: string)
    requires "subscribe" in measure.methods && measure.path !in s.subscriptions
    ensures var t := Unsubscribe(Subscribe(s, true, Some(measure), Some(serial), address, measureName),
                                 true, Some(measure), address, measureName);
      && t.subscriptions == s.subscriptions
      && t.devices == Update(s.devices, address, WhiteboardSubscriptionState(measureName, false))
  {
    var t1 := Subscribe(s, true, Some(measure), Some(serial), address, measureName);
    assert t1.subscriptions - {measure.path} == s.subscriptions;
    var u := WhiteboardSubscriptionState(measureName, true);
    var v := WhiteboardSubscriptionState(measureName, false);
    if address in s.devices {
      var d := s.devices[address];
      SetSubscribedTwice(d.whiteboardServices, measureName, true, false);
    }
  }

  /** Setting the flag twice leaves the later value. */
  lemma {:induction false} SetSubscribedTwice(ws: seq<WhiteboardMeasureInfo>, name: string, a: bool, b: bool)
    ensures SetSubscribed(SetSubscribed(ws, name, a), name, b) == SetSubscribed(ws, name, b)
  {
    var r1 := SetSubscribed(SetSubscribed(ws, name, a), name, b);
    var r2 := SetSubscribed(ws, name, b);
    assert |r1| == |r2|;
    forall i | 0 <= i < |r1| ensures r1[i] == r2[i] {
    }
  }

  /** `getConnectedDeviceAddresses`. */
  function ConnectedAddresses(devices: map<string, BleDeviceState>): (r: set<string>)
    ensures forall a :: a in r <==> a in devices && devices[a].isConnected
  {
    set a | a in devices && devices[a].isConnected
  }

  lemma QueueAllSnoc(m: ConnectionMaps, a: string, ds: seq<GattDescriptor>, d: GattDescriptor)
    ensures QueueAll(m, a, ds + [d]) == ServeDescriptors(EnqueueDescriptor(QueueAll(m, a, ds), a, d), a)
  {
    assert (ds + [d])[..|ds|] == ds;
  }

  lemma EnableWritesSnoc(services: seq<RemoteService>, i: nat, uuid: string)
    requires i < |services|
    ensures EnableWrites(services[..i + 1], uuid) == EnableWrites(services[..i], uuid) + ServiceEnable(services[i], uuid)
    ensures DisableWrites(services[..i + 1], uuid) == DisableWrites(services[..i], uuid) + ServiceDisable(services[i], uuid)
  {
    assert services[..i + 1][..i] == services[..i];
  }

  /** The `gatt.services.forEach` loop of `enableNotifications`. */
  method QueueEnableWrites(bm: BleManager, address: string, services: seq<RemoteService>, uuid: string)
    requires bm.Valid()
    modifies bm
    ensures bm.Valid()
    ensures bm.movesenseConnectedDevices == old(bm.movesenseConnectedDevices)
    ensures bm.Maps() == QueueAll(old(bm.Maps()), address, EnableWrites(services, uuid))
  {
    ghost var m0 := bm.Maps();
    var i := 0;
    while i < |services|
      invariant 0 <= i <= |services|
      invariant bm.Valid()
      invariant bm.movesenseConnectedDevices == old(bm.movesenseConnectedDevices)
      invariant bm.Maps() == QueueAll(m0, address, EnableWrites(services[..i], uuid))
    {
      EnableService(bm, address, services, i, uuid, m0);
      i := i + 1;
    }
    assert services[..|services|] == services;
  }

  /** One service of the loop above: its ENABLE write, if any, is queued. */
  method EnableService(bm: BleManager, address: string, services: seq<RemoteService>, i: nat, uuid: string, ghost m0: ConnectionMaps)
    requires i < |services|
    requires bm.Valid()
    requires bm.Maps() == QueueAll(m0, address, EnableWrites(services[..i], uuid))
    modifies bm
    ensures bm.Valid()
    ensures bm.movesenseConnectedDevices == old(bm.movesenseConnectedDevices)
    ensures bm.Maps() == QueueAll(m0, address, EnableWrites(services[..i + 1], uuid))
  {
    ghost var before := EnableWrites(services[..i], uuid);
    EnableWritesSnoc(services, i, uuid);
    var found := FindExact(services[i].characteristics, uuid);
    if found.Some? && BitAnd(found.value.properties, PROPERTY_NOTIFY) != 0 && found.value.hasCccd {
      var desc := GattDescriptor(CCCD_UUID, ENABLE_NOTIFICATION_VALUE, found.value.uuid, services[i].uuid);
      assert ServiceEnable(services[i], uuid) == [desc];
      QueueAllSnoc(m0, address, before, desc);
      bm.QueueDescriptorWrite(address, desc);
    } else {
      assert ServiceEnable(services[i], uuid) == [];
      assert before + [] == before;
    }
  }

  /** The `gatt.services.forEach` loop of `disableNotifications`. */
  method QueueDisableWrites(bm: BleManager, address: string, services: seq<RemoteService>, uuid: string)
    requires bm.Valid()
    modifies bm
    ensures bm.Valid()
    ensures bm.movesenseConnectedDevices == old(bm.movesenseConnectedDevices)
    ensures bm.Maps() == QueueAll(old(bm.Maps()), address, DisableWrites(services, uuid))
  {
    ghost var m0 := bm.Maps();
    var i := 0;
    while i < |services|
      invariant 0 <= i <= |services|
      invariant bm.Valid()
      invariant bm.movesenseConnectedDevices == old(bm.movesenseConnectedDevices)
      invariant bm.Maps() == QueueAll(m0, address, DisableWrites(services[..i], uuid))
    {
      DisableService(bm, address, services, i, uuid, m0);
      i := i + 1;
    }
    assert services[..|services|] == services;
  }

  /** One service of the loop above: its DISABLE write, if any, is queued. */
  method DisableService(bm: BleManager, address: string, services: seq<RemoteService>, i: nat, uuid: string, ghost m0: ConnectionMaps)
    requires i < |services|
    requires bm.Valid()
    requires bm.Maps() == QueueAll(m0, address, DisableWrites(services[..i], uuid))
    modifies bm
    ensures bm.Valid()
    ensures bm.movesenseConnectedDevices == old(bm.movesenseConnectedDevices)
    ensures bm.Maps() == QueueAll(m0, address, DisableWrites(services[..i + 1], uuid))
  {
    ghost var before := DisableWrites(services[..i], uuid);
    EnableWritesSnoc(services, i, uuid);
    var found := FindExact(services[i].characteristics, uuid);
    if found.Some? && found.value.hasCccd {
      var desc := GattDescriptor(CCCD_UUID, DISABLE_NOTIFICATION_VALUE, found.value.uuid, services[i].uuid);
      assert ServiceDisable(services[i], uuid) == [desc];
      QueueAllSnoc(m0, address, before, desc);
      bm.QueueDescriptorWrite(address, desc);
    } else {
      assert ServiceDisable(services[i], uuid) == [];
      assert before + [] == before;
    }
  }

  // ---------------------------------------------------------------------------
  // The service

  class BleAndMqttService {
    const bleManager: BleManager
    const repository: BleRepository
    const lookups: ConfigLookups
    /** `JSONObject.toString`. */
    const render: Value -> string
    var mSubscriptions: map<string, MdsSubscription>
    var published: seq<Publication>

    constructor(bleManager: BleManager, repository: BleRepository, lookups: ConfigLookups, render: Value -> string)
      ensures this.bleManager == bleManager && this.repository == repository
      ensures this.lookups == lookups && this.render == render
      ensures mSubscriptions == map[] && published == []
    {
      this.bleManager := bleManager;
      this.repository := repository;
      this.lookups := lookups;
      this.render := render;
      mSubscriptions := map[];
      published := [];
    }

    function Subscriptions(): SubscriptionState
      reads this, repository
    {
      SubscriptionState(mSubscriptions, repository.scannedDevices)
    }

    /** `enableNotifications`: for a connected device whose characteristic
        is configured, an ENABLE write of the CCCD of each service's matching
        characteristic that notifies, queued in service order. */
    method EnableNotifications(address: string, charName: string, deviceName: Option<string>, services: seq<RemoteService>)
      requires bleManager.Valid()
      modifies bleManager
      ensures bleManager.Valid()
      ensures bleManager.movesenseConnectedDevices == old(bleManager.movesenseConnectedDevices)
      ensures var info := lookups.findConfChar(deviceName.GetOr("Unknown"), charName, address);
        bleManager.Maps() ==
          if address !in old(bleManager.gattConnections) || info.None? then old(bleManager.Maps())
          else QueueAll(old(bleManager.Maps()), address, EnableWrites(services, info.value.uuid))
    {
      if address !in bleManager.gattConnections {
        return;
      }
      var characteristicInfo := lookups.findConfChar(deviceName.GetOr("Unknown"), charName, address);
      if characteristicInfo.None? {
        return;
      }
      QueueEnableWrites(bleManager, address, services, characteristicInfo.value.uuid);
    }

    /** `disableNotifications`: a DISABLE write of the CCCD of each
        service's matching characteristic, notifying or not. */
    method DisableNotifications(address: string, charName: string, deviceName: Option<string>, services: seq<RemoteService>)
      requires bleManager.Valid()
      modifies bleManager
      ensures bleManager.Valid()
      ensures bleManager.movesenseConnectedDevices == old(bleManager.movesenseConnectedDevices)
      ensures var info := lookups.findConfChar(deviceName.GetOr("Unknown"), charName, address);
        bleManager.Maps() ==
          if address !in old(bleManager.gattConnections) || info.None? then old(bleManager.Maps())
          else QueueAll(old(bleManager.Maps()), address, DisableWrites(services, info.value.uuid))
    {
      if address !in bleManager.gattConnections {
        return;
      }
      var characteristicInfo := lookups.findConfChar(deviceName.GetOr("Unknown"), charName, address);
      if characteristicInfo.None? {
        return;
      }
      QueueDisableWrites(bleManager, address, services, characteristicInfo.value.uuid);
    }

    /** `enableSubscriptionForWhiteBoardMeasure`. */
    method EnableSubscription(address: string, measureName: string, deviceName: Option<string>)
      modifies this, repository
      ensures Subscriptions() == Subscribe(old(Subscriptions()), address in bleManager.gattConnections,
        lookups.findMeasurePath(deviceName.GetOr("Unknown"), address, measureName), bleManager.GetMovesenseSerial(address),
        address, measureName)
      ensures published == old(published) && repository.latestData == old(repository.latestData)
      ensures repository.statusText == old(repository.statusText)
    {
      if address !in bleManager.gattConnections {
        return;
      }
      var whiteboardMeasure := lookups.findMeasurePath(deviceName.GetOr("Unknown"), address, measureName);
      if whiteboardMeasure.None? {
        return;
      }
      var movesenseSerial := bleManager.GetMovesenseSerial(address);
      if movesenseSerial.None? {
        return;
      }
      if "subscribe" in whiteboardMeasure.value.methods {
        var mSub := NewSubscription(movesenseSerial.value, whiteboardMeasure.value, address, measureName);
        mSubscriptions := mSubscriptions[whiteboardMeasure.value.path := mSub];
        repository.UpdateDevice(address, WhiteboardSubscriptionState(measureName, true));
      }
    }

    /** `disableSubscriptionForWhiteBoardMeasure`. */
    method DisableSubscription(address: string, measureName: string, deviceName: Option<string>)
      modifies this, repository
      ensures Subscriptions() == Unsubscribe(old(Subscriptions()), address in bleManager.gattConnections,
        lookups.findMeasurePath(deviceName.GetOr("Unknown"), address, measureName), address, measureName)
      ensures published == old(published) && repository.latestData == old(repository.latestData)
      ensures repository.statusText == old(repository.statusText)
    {
      if address !in bleManager.gattConnections {
        return;
      }
      var whiteboardMeasure := lookups.findMeasurePath(deviceName.GetOr("Unknown"), address, measureName);
      if whiteboardMeasure.None? {
        return;
      }
      if whiteboardMeasure.value.path in mSubscriptions {
        mSubscriptions := mSubscriptions - {whiteboardMeasure.value.path};
        repository.UpdateDevice(address, WhiteboardSubscriptionState(measureName, false));
      }
    }

    /** The subscription listener's `onNotification`: a payload org.json
        accepts is shown as "<measure>: <json>" and published when the
        measure has a topic; one it rejects changes nothing. */
    method OnNotification(sub: MdsSubscription, data: Value, gateway: Gateway)
      modifies this, repository
      ensures mSubscriptions == old(mSubscriptions) && repository.scannedDevices == old(repository.scannedDevices)
      ensures repository.statusText == old(repository.statusText)
      ensures var p := NotificationPayload(data, sub.serial, sub.address, gateway);
        && (p.None? ==> published == old(published) && repository.latestData == old(repository.latestData))
        && (p.Some? ==> repository.latestData == sub.measureName + ": " + render(p.value))
        && (p.Some? ==> published == old(published) + if sub.mqttTopic.Some? then [Publication(sub.mqttTopic.value, p.value)] else [])
    {
      var payload := BuildPayload(data, sub.serial, sub.address, gateway);
      if payload.None? {
        return;
      }
      var jsonString := render(payload.value);
      repository.UpdateData(sub.measureName + ": " + jsonString);
      if sub.mqttTopic.Some? {
        published := published + [Publication(sub.mqttTopic.value, payload.value)];
      }
    }
  }
}
