/** BleManager.kt: the per-address bookkeeping of the GATT client, made of
    the connections, the Movesense serials, and for each address a FIFO of
    descriptor writes and a FIFO of characteristic writes, each with an
    "in flight" flag, so that one write per kind is outstanding at a time.
    The GATT calls it makes and the callbacks it receives are recorded in
    `events`, in order. */
module BleManagement {
  import opened Wrappers
  import opened Bytes
  import opened Text
  import opened Repositories
  import opened DeviceConfiguration

  /** Client Characteristic Configuration descriptor, section 3.3.3.3 of
      Volume 3 Part G of the Bluetooth Core Specification. */
  const CCCD_UUID: string := "00002902-0000-1000-8000-00805f9b34fb"
  const DISABLE_NOTIFICATION_VALUE: seq<byte> := [0x00, 0x00]
  const ENABLE_NOTIFICATION_VALUE: seq<byte> := [0x01, 0x00]

  /** `BluetoothGatt.GATT_SUCCESS`, `BluetoothProfile.STATE_CONNECTED` and `STATE_DISCONNECTED`. */
  const GATT_SUCCESS: int := 0
  const STATE_CONNECTED: int := 2
  const STATE_DISCONNECTED: int := 0

  /** A GATT descriptor as the callbacks see it: its UUID, the value last
      written, and the characteristic and service it belongs to. */
  datatype GattDescriptor = GattDescriptor(uuid: string, value: seq<byte>, characteristicUuid: string, serviceUuid: string)

  datatype GattCharacteristic = GattCharacteristic(uuid: string, serviceUuid: string, properties: nat)

  /** `BleManager.CharacteristicWrite`. */
  datatype CharacteristicWrite = CharacteristicWrite(characteristic: GattCharacteristic, data: seq<byte>)

  /** The `BluetoothGatt` of a connection, known by its address. */
  datatype Gatt = Gatt(address: string)

  datatype Event =
    | Connected(address: string)
    | MdsConnectRequested(address: string)
    | DescriptorQueued(address: string, descriptor: GattDescriptor)
    | DescriptorWritten(address: string, descriptor: GattDescriptor)
    | DescriptorWriteDone(address: string)
    | CharacteristicQueued(address: string, write: CharacteristicWrite)
    | CharacteristicWritten(address: string, write: CharacteristicWrite)
    | CharacteristicWriteDone(address: string)

  // ---------------------------------------------------------------------------
  // What the events say about one address since its last connection

  /** One write FIFO as the events tell it: what was queued, what was
      written, and how many writes are still unanswered. */
  datatype Channel<T> = Channel(queued: seq<T>, sent: seq<T>, inFlight: nat)

  datatype View = View(descriptors: Channel<GattDescriptor>, writes: Channel<CharacteristicWrite>)

  function FreshView(): View {
    View(Channel([], [], 0), Channel([], [], 0))
  }

  /** The effect of one event on the view of its own address. */
  function StepView(v: View, e: Event): View {
    match e
    case Connected(_) => FreshView()
    case MdsConnectRequested(_) => v
    case DescriptorQueued(_, d) => v.(descriptors := v.descriptors.(queued := v.descriptors.queued + [d]))
    case DescriptorWritten(_, d) => v.(descriptors := v.descriptors.(sent := v.descriptors.sent + [d], inFlight := v.descriptors.inFlight + 1))
    case DescriptorWriteDone(_) => v.(descriptors := v.descriptors.(inFlight := 0))
    case CharacteristicQueued(_, w) => v.(writes := v.writes.(queued := v.writes.queued + [w]))
    case CharacteristicWritten(_, w) => v.(writes := v.writes.(sent := v.writes.sent + [w], inFlight := v.writes.inFlight + 1))
    case CharacteristicWriteDone(_) => v.(writes := v.writes.(inFlight := 0))
  }

  /** The view of address `a` after `events`. */
  function ViewOf(events: seq<Event>, a: string): View {
    if events == [] then FreshView()
    else
      var v := ViewOf(events[..|events| - 1], a);
      var e := events[|events| - 1];
      if e.address == a then StepView(v, e) else v
  }

  lemma ViewSnoc(events: seq<Event>, e: Event, a: string)
    ensures ViewOf(events + [e], a) == if e.address == a then StepView(ViewOf(events, a), e) else ViewOf(events, a)
  {
    assert (events + [e])[..|events|] == events;
  }

  /** Events about other addresses leave the view of `a` as it was. */
  lemma {:induction false} ViewAppendOther(events: seq<Event>, es: seq<Event>, a: string)
    requires forall i :: 0 <= i < |es| ==> es[i].address != a
    ensures ViewOf(events + es, a) == ViewOf(events, a)
  {
    if es == [] {
      assert events + es == events;
    } else {
      var init := es[..|es| - 1];
      ViewAppendOther(events, init, a);
      assert events + es == (events + init) + [es[|es| - 1]];
      ViewSnoc(events + init, es[|es| - 1], a);
    }
  }

  /** The FIFO discipline of one queue: what was written followed by what
      still waits is what was queued; at most one write is unanswered, and
      none while the "writing" flag is down. */
  predicate ChannelOk<T(==)>(c: Channel<T>, queue: seq<T>, writing: bool) {
    && c.sent + queue == c.queued
    && c.inFlight <= 1
    && (!writing ==> c.inFlight == 0)
  }

  predicate DescriptorsOk(events: seq<Event>, queues: map<string, seq<GattDescriptor>>, flags: map<string, bool>) {
    && queues.Keys <= flags.Keys
    && forall a {:trigger ViewOf(events, a)} :: a in queues ==> ChannelOk(ViewOf(events, a).descriptors, queues[a], flags[a])
  }

  predicate WritesOk(events: seq<Event>, queues: map<string, seq<CharacteristicWrite>>, flags: map<string, bool>) {
    && queues.Keys <= flags.Keys
    && forall a {:trigger ViewOf(events, a)} :: a in queues ==> ChannelOk(ViewOf(events, a).writes, queues[a], flags[a])
  }

  /** Changing the queue of one address, with events about that address
      only, keeps the descriptor discipline if it holds for that address. */
  lemma DescriptorsFrame(events: seq<Event>, queues: map<string, seq<GattDescriptor>>, flags: map<string, bool>,
                         es: seq<Event>, queues': map<string, seq<GattDescriptor>>, flags': map<string, bool>, a: string)
    requires DescriptorsOk(events, queues, flags)
    requires queues'.Keys <= flags'.Keys
    requires forall b :: b in queues' && b != a ==> b in queues && queues'[b] == queues[b] && flags'[b] == flags[b]
    requires a in queues' ==> ChannelOk(ViewOf(events + es, a).descriptors, queues'[a], flags'[a])
    requires forall i :: 0 <= i < |es| ==> es[i].address == a
    ensures DescriptorsOk(events + es, queues', flags')
  {
    forall b | b in queues' && b != a
      ensures ChannelOk(ViewOf(events + es, b).descriptors, queues'[b], flags'[b])
    {
      ViewAppendOther(events, es, b);
    }
  }

  lemma WritesFrame(events: seq<Event>, queues: map<string, seq<CharacteristicWrite>>, flags: map<string, bool>,
                    es: seq<Event>, queues': map<string, seq<CharacteristicWrite>>, flags': map<string, bool>, a: string)
    requires WritesOk(events, queues, flags)
    requires queues'.Keys <= flags'.Keys
    requires forall b :: b in queues' && b != a ==> b in queues && queues'[b] == queues[b] && flags'[b] == flags[b]
    requires a in queues' ==> ChannelOk(ViewOf(events + es, a).writes, queues'[a], flags'[a])
    requires forall i :: 0 <= i < |es| ==> es[i].address == a
    ensures WritesOk(events + es, queues', flags')
  {
    forall b | b in queues' && b != a
      ensures ChannelOk(ViewOf(events + es, b).writes, queues'[b], flags'[b])
    {
      ViewAppendOther(events, es, b);
    }
  }

  // ---------------------------------------------------------------------------
  // The queue maps as one value, and what each operation does to them

  /** `gattConnections`, the two write queues with their flags, and the events. */
  datatype ConnectionMaps = ConnectionMaps(
    connections: map<string, Gatt>,
    descriptorQueues: map<string, seq<GattDescriptor>>, writingDescriptors: map<string, bool>,
    writeQueues: map<string, seq<CharacteristicWrite>>, writingWrites: map<string, bool>,
    events: seq<Event>)

  /** The invariant: every connection has both queues and only connections
      have them, every queue has its flag, and each queue keeps its FIFO
      discipline. */
  predicate QueuesOk(m: ConnectionMaps) {
    && m.descriptorQueues.Keys == m.connections.Keys
    && m.writeQueues.Keys == m.connections.Keys
    && DescriptorsOk(m.events, m.descriptorQueues, m.writingDescriptors)
    && WritesOk(m.events, m.writeQueues, m.writingWrites)
  }

  /** The devices `connectToDevice` also connects through the Movesense library. */
  predicate IsMovesense(deviceName: Option<string>) {
    deviceName.Some? && Contains(deviceName.value, "Movesense")
  }

  /** A new connection: empty queues with lowered flags, a Movesense
      connection request for a Movesense device, then the GATT connection. */
  function Open(m: ConnectionMaps, a: string, movesense: bool): ConnectionMaps {
    ConnectionMaps(m.connections[a := Gatt(a)],
      m.descriptorQueues[a := []], m.writingDescriptors[a := false],
      m.writeQueues[a := []], m.writingWrites[a := false],
      m.events + ConnectEvents(a, movesense))
  }

  function ConnectEvents(a: string, movesense: bool): (es: seq<Event>)
    ensures es != [] && es[|es| - 1] == Connected(a)
    ensures forall i :: 0 <= i < |es| ==> es[i].address == a
  {
    if movesense then [MdsConnectRequested(a), Connected(a)] else [Connected(a)]
  }

  /** A connection starts the view of its address afresh. */
  lemma ConnectResets(events: seq<Event>, es: seq<Event>, a: string)
    requires es != [] && es[|es| - 1] == Connected(a)
    ensures ViewOf(events + es, a) == FreshView()
  {
    assert events + es == (events + es[..|es| - 1]) + [Connected(a)];
    ViewSnoc(events + es[..|es| - 1], Connected(a), a);
  }

  /** `cleanupDevice`, but for the Movesense serials. */
  function Cleanup(m: ConnectionMaps, a: string): ConnectionMaps {
    m.(connections := m.connections - {a},
       descriptorQueues := m.descriptorQueues - {a}, writingDescriptors := m.writingDescriptors - {a},
       writeQueues := m.writeQueues - {a}, writingWrites := m.writingWrites - {a})
  }

  /** `descriptorWriteQueues[address]?.add(descriptor)`. */
  function EnqueueDescriptor(m: ConnectionMaps, a: string, d: GattDescriptor): ConnectionMaps {
    if a in m.descriptorQueues
    then m.(descriptorQueues := m.descriptorQueues[a := m.descriptorQueues[a] + [d]], events := m.events + [DescriptorQueued(a, d)])
    else m
  }

  /** `processDescriptorQueue`: with the flag down and a non-empty queue,
      the head is removed and the flag raised, and the head is written when
      the address has a connection. */
  function ServeDescriptors(m: ConnectionMaps, a: string): ConnectionMaps {
    if a in m.writingDescriptors && m.writingDescriptors[a] then m
    else if a !in m.descriptorQueues || m.descriptorQueues[a] == [] then m
    else
      var queue := m.descriptorQueues[a];
      m.(descriptorQueues := m.descriptorQueues[a := queue[1..]], writingDescriptors := m.writingDescriptors[a := true],
         events := m.events + (if a in m.connections then [DescriptorWritten(a, queue[0])] else []))
  }

  /** `isWritingDescriptors[address] = false` on the answer to a write. */
  function AckDescriptor(m: ConnectionMaps, a: string): ConnectionMaps {
    m.(writingDescriptors := m.writingDescriptors[a := false], events := m.events + [DescriptorWriteDone(a)])
  }

  function EnqueueWrite(m: ConnectionMaps, a: string, w: CharacteristicWrite): ConnectionMaps {
    if a in m.writeQueues
    then m.(writeQueues := m.writeQueues[a := m.writeQueues[a] + [w]], events := m.events + [CharacteristicQueued(a, w)])
    else m
  }

  /** `processCharacteristicQueue`: as `ServeDescriptors`; the head is
      removed and the flag raised before the connection is looked up. */
  function ServeWrites(m: ConnectionMaps, a: string): ConnectionMaps {
    if a in m.writingWrites && m.writingWrites[a] then m
    else if a !in m.writeQueues || m.writeQueues[a] == [] then m
    else
      var queue := m.writeQueues[a];
      m.(writeQueues := m.writeQueues[a := queue[1..]], writingWrites := m.writingWrites[a := true],
         events := m.events + (if a in m.connections then [CharacteristicWritten(a, queue[0])] else []))
  }

  function AckWrite(m: ConnectionMaps, a: string): ConnectionMaps {
    m.(writingWrites := m.writingWrites[a := false], events := m.events + [CharacteristicWriteDone(a)])
  }

  lemma OpenKeeps(m: ConnectionMaps, a: string, movesense: bool)
    requires QueuesOk(m)
    requires a !in m.connections
    ensures QueuesOk(Open(m, a, movesense))
  {
    var es := ConnectEvents(a, movesense);
    DescriptorsReset(m.events, m.descriptorQueues, m.writingDescriptors, es, a);
    WritesReset(m.events, m.writeQueues, m.writingWrites, es, a);
  }

  lemma DescriptorsReset(events: seq<Event>, queues: map<string, seq<GattDescriptor>>, flags: map<string, bool>, es: seq<Event>, a: string)
    requires DescriptorsOk(events, queues, flags)
    requires es != [] && es[|es| - 1] == Connected(a)
    requires forall i :: 0 <= i < |es| ==> es[i].address == a
    ensures DescriptorsOk(events + es, queues[a := []], flags[a := false])
  {
    ConnectResets(events, es, a);
    DescriptorsFrame(events, queues, flags, es, queues[a := []], flags[a := false], a);
  }

  lemma WritesReset(events: seq<Event>, queues: map<string, seq<CharacteristicWrite>>, flags: map<string, bool>, es: seq<Event>, a: string)
    requires WritesOk(events, queues, flags)
    requires es != [] && es[|es| - 1] == Connected(a)
    requires forall i :: 0 <= i < |es| ==> es[i].address == a
    ensures WritesOk(events + es, queues[a := []], flags[a := false])
  {
    ConnectResets(events, es, a);
    WritesFrame(events, queues, flags, es, queues[a := []], flags[a := false], a);
  }

  lemma CleanupKeeps(m: ConnectionMaps, a: string)
    requires QueuesOk(m)
    ensures QueuesOk(Cleanup(m, a))
  {
    DescriptorsFrame(m.events, m.descriptorQueues, m.writingDescriptors, [], m.descriptorQueues - {a}, m.writingDescriptors - {a}, a);
    WritesFrame(m.events, m.writeQueues, m.writingWrites, [], m.writeQueues - {a}, m.writingWrites - {a}, a);
    assert m.events + [] == m.events;
  }

  lemma EnqueueDescriptorKeeps(m: ConnectionMaps, a: string, d: GattDescriptor)
    requires QueuesOk(m)
    ensures QueuesOk(EnqueueDescriptor(m, a, d))
  {
    if a in m.descriptorQueues {
      var e := DescriptorQueued(a, d);
      ViewSnoc(m.events, e, a);
      DescriptorsFrame(m.events, m.descriptorQueues, m.writingDescriptors, [e], m.descriptorQueues[a := m.descriptorQueues[a] + [d]], m.writingDescriptors, a);
      WritesFrame(m.events, m.writeQueues, m.writingWrites, [e], m.writeQueues, m.writingWrites, a);
    }
  }

  /** Serving the queue keeps the FIFO discipline; in particular the write
      issued is the oldest one waiting, and only one is outstanding. */
  lemma ServeDescriptorsKeeps(m: ConnectionMaps, a: string)
    requires QueuesOk(m)
    ensures QueuesOk(ServeDescriptors(m, a))
  {
    if !(a in m.writingDescriptors && m.writingDescriptors[a]) && a in m.descriptorQueues && m.descriptorQueues[a] != [] {
      var queue := m.descriptorQueues[a];
      var e := DescriptorWritten(a, queue[0]);
      ViewSnoc(m.events, e, a);
      assert [queue[0]] + queue[1..] == queue;
      DescriptorsFrame(m.events, m.descriptorQueues, m.writingDescriptors, [e], m.descriptorQueues[a := queue[1..]], m.writingDescriptors[a := true], a);
      WritesFrame(m.events, m.writeQueues, m.writingWrites, [e], m.writeQueues, m.writingWrites, a);
    }
  }

  /** Writes go out in the order they were queued: the descriptor an idle
      queue writes is the oldest one queued and not yet written. */
  lemma ServeDescriptorsWritesOldest(m: ConnectionMaps, a: string)
    requires QueuesOk(m)
    requires a in m.descriptorQueues && m.descriptorQueues[a] != [] && !m.writingDescriptors[a]
    ensures var c := ViewOf(m.events, a).descriptors;
      && |c.sent| < |c.queued|
      && ServeDescriptors(m, a).events == m.events + [DescriptorWritten(a, c.queued[|c.sent|])]
      && ViewOf(ServeDescriptors(m, a).events, a).descriptors.inFlight == 1
  {
    var c := ViewOf(m.events, a).descriptors;
    var queue := m.descriptorQueues[a];
    assert c.sent + queue == c.queued;
    assert c.queued[|c.sent|] == queue[0];
    ViewSnoc(m.events, DescriptorWritten(a, queue[0]), a);
  }

  lemma ServeWritesWritesOldest(m: ConnectionMaps, a: string)
    requires QueuesOk(m)
    requires a in m.writeQueues && m.writeQueues[a] != [] && !m.writingWrites[a]
    ensures var c := ViewOf(m.events, a).writes;
      && |c.sent| < |c.queued|
      && ServeWrites(m, a).events == m.events + [CharacteristicWritten(a, c.queued[|c.sent|])]
      && ViewOf(ServeWrites(m, a).events, a).writes.inFlight == 1
  {
    var c := ViewOf(m.events, a).writes;
    var queue := m.writeQueues[a];
    assert c.sent + queue == c.queued;
    assert c.queued[|c.sent|] == queue[0];
    ViewSnoc(m.events, CharacteristicWritten(a, queue[0]), a);
  }

  lemma AckDescriptorKeeps(m: ConnectionMaps, a: string)
    requires QueuesOk(m)
    ensures QueuesOk(AckDescriptor(m, a))
  {
    var e := DescriptorWriteDone(a);
    ViewSnoc(m.events, e, a);
    DescriptorsFrame(m.events, m.descriptorQueues, m.writingDescriptors, [e], m.descriptorQueues, m.writingDescriptors[a := false], a);
    WritesFrame(m.events, m.writeQueues, m.writingWrites, [e], m.writeQueues, m.writingWrites, a);
  }

  lemma EnqueueWriteKeeps(m: ConnectionMaps, a: string, w: CharacteristicWrite)
    requires QueuesOk(m)
    ensures QueuesOk(EnqueueWrite(m, a, w))
  {
    if a in m.writeQueues {
      var e := CharacteristicQueued(a, w);
      ViewSnoc(m.events, e, a);
      DescriptorsFrame(m.events, m.descriptorQueues, m.writingDescriptors, [e], m.descriptorQueues, m.writingDescriptors, a);
      WritesFrame(m.events, m.writeQueues, m.writingWrites, [e], m.writeQueues[a := m.writeQueues[a] + [w]], m.writingWrites, a);
    }
  }

  lemma ServeWritesKeeps(m: ConnectionMaps, a: string)
    requires QueuesOk(m)
    ensures QueuesOk(ServeWrites(m, a))
  {
    if !(a in m.writingWrites && m.writingWrites[a]) && a in m.writeQueues && m.writeQueues[a] != [] {
      var queue := m.writeQueues[a];
      var e := CharacteristicWritten(a, queue[0]);
      ViewSnoc(m.events, e, a);
      assert [queue[0]] + queue[1..] == queue;
      DescriptorsFrame(m.events, m.descriptorQueues, m.writingDescriptors, [e], m.descriptorQueues, m.writingDescriptors, a);
      WritesFrame(m.events, m.writeQueues, m.writingWrites, [e], m.writeQueues[a := queue[1..]], m.writingWrites[a := true], a);
    }
  }

  lemma AckWriteKeeps(m: ConnectionMaps, a: string)
    requires QueuesOk(m)
    ensures QueuesOk(AckWrite(m, a))
  {
    var e := CharacteristicWriteDone(a);
    ViewSnoc(m.events, e, a);
    DescriptorsFrame(m.events, m.descriptorQueues, m.writingDescriptors, [e], m.descriptorQueues, m.writingDescriptors, a);
    WritesFrame(m.events, m.writeQueues, m.writingWrites, [e], m.writeQueues, m.writingWrites[a := false], a);
  }

  /** "1M", then ", 2M" and ", Coded" for the PHYs the adapter supports. */
  function SupportedPhy(le2M: bool, leCoded: bool): (r: string)
    ensures |r| == 2 + (if le2M then 4 else 0) + (if leCoded then 7 else 0)
    ensures r[..2] == "1M"
  {
    "1M" + (if le2M then ", 2M" else "") + (if leCoded then ", Coded" else "")
  }

  /** The string tells which PHYs are supported. */
  lemma SupportedPhyInjective(le2M: bool, leCoded: bool, le2M': bool, leCoded': bool)
    requires SupportedPhy(le2M, leCoded) == SupportedPhy(le2M', leCoded')
    ensures le2M == le2M' && leCoded == leCoded'
  {
    assert |SupportedPhy(le2M, leCoded)| == |SupportedPhy(le2M', leCoded')|;
  }

  /** The name `onDescriptorWrite` reports: the device-specific entry's,
      else that of the first characteristic with the UUID. */
  function ResolvedName(config: Option<Configuration>, deviceName: string, serviceUuid: string, characteristicUuid: string): Option<string> {
    var c := ResolveCharacteristic(config, deviceName, serviceUuid, characteristicUuid);
    if c.Some? then Some(c.value.name) else None
  }

  /** What `onDescriptorWrite` does to the scanned devices: after a
      successful write of the CCCD whose characteristic's name resolves,
      that characteristic is marked notifying exactly when the value
      written is not DISABLE_NOTIFICATION_VALUE; otherwise nothing. */
  function NotificationUpdate(devices: map<string, BleDeviceState>, config: Option<Configuration>, address: string,
                              descriptor: GattDescriptor, status: int, deviceName: Option<string>): map<string, BleDeviceState> {
    var name := ResolvedName(config, deviceName.GetOr("Unknown"), descriptor.serviceUuid, descriptor.characteristicUuid);
    if status == GATT_SUCCESS && descriptor.uuid == CCCD_UUID && name.Some?
    then Update(devices, address, CharacteristicNotificationState(name.value, descriptor.value != DISABLE_NOTIFICATION_VALUE))
    else devices
  }

  class BleManager {
    const repository: BleRepository
    const deviceConfigManager: DeviceConfigurationManager

    var gattConnections: map<string, Gatt>
    var movesenseConnectedDevices: map<string, string>
    var descriptorWriteQueues: map<string, seq<GattDescriptor>>
    var isWritingDescriptors: map<string, bool>
    var characteristicWriteQueues: map<string, seq<CharacteristicWrite>>
    var isWritingCharacteristics: map<string, bool>
    var events: seq<Event>

    function Maps(): ConnectionMaps
      reads this
    {
      ConnectionMaps(gattConnections, descriptorWriteQueues, isWritingDescriptors, characteristicWriteQueues, isWritingCharacteristics, events)
    }

    predicate Valid()
      reads this
    {
      QueuesOk(Maps())
    }

    constructor(repository: BleRepository, deviceConfigManager: DeviceConfigurationManager)
      ensures Valid()
      ensures this.repository == repository && this.deviceConfigManager == deviceConfigManager
      ensures Maps() == ConnectionMaps(map[], map[], map[], map[], map[], [])
      ensures movesenseConnectedDevices == map[]
    {
      this.repository := repository;
      this.deviceConfigManager := deviceConfigManager;
      gattConnections := map[];
      movesenseConnectedDevices := map[];
      descriptorWriteQueues := map[];
      isWritingDescriptors := map[];
      characteristicWriteQueues := map[];
      isWritingCharacteristics := map[];
      events := [];
    }

    /** `connectToDevice`: without an adapter or with an empty address, or
        for an address already connected, only the status changes; a new
        address is recorded with the repository and opened. */
    method ConnectToDevice(address: string, adapterAvailable: bool, deviceName: Option<string>)
      requires Valid()
      modifies this, repository
      ensures Valid()
      ensures movesenseConnectedDevices == old(movesenseConnectedDevices)
      ensures repository.latestData == old(repository.latestData)
      ensures !adapterAvailable || address == "" ==>
        && Maps() == old(Maps())
        && repository.scannedDevices == old(repository.scannedDevices)
        && repository.statusText == "Bluetooth adapter not initialized or invalid address"
      ensures adapterAvailable && address != "" && address in old(gattConnections) ==>
        && Maps() == old(Maps())
        && repository.scannedDevices == old(repository.scannedDevices)
        && repository.statusText == "Already connected to " + deviceName.GetOr("Unknown")
      ensures adapterAvailable && address != "" && address !in old(gattConnections) ==>
        && Maps() == Open(old(Maps()), address, IsMovesense(deviceName))
        && repository.scannedDevices == AddOrUpdate(old(repository.scannedDevices), address, deviceName, None)
        && repository.statusText == "Connecting to " + deviceName.GetOr("Unknown") + "..."
    {
      if !adapterAvailable || address == "" {
        repository.UpdateStatus("Bluetooth adapter not initialized or invalid address");
        return;
      }
      var name := deviceName.GetOr("Unknown");
      if address in gattConnections {
        repository.UpdateStatus("Already connected to " + name);
        return;
      }
      repository.AddOrUpdateScannedDevice(address, deviceName, None);
      repository.UpdateStatus("Connecting to " + name + "...");
      OpenConnection(address, IsMovesense(deviceName));
    }

    /** The part of `connectToDevice` on this object: the maps are set to
        what `Open` describes, in the order the source sets them. */
    method OpenConnection(address: string, movesense: bool)
      requires Valid()
      requires address !in gattConnections
      modifies this
      ensures Valid()
      ensures Maps() == Open(old(Maps()), address, movesense)
      ensures movesenseConnectedDevices == old(movesenseConnectedDevices)
    {
      OpenKeeps(Maps(), address, movesense);
      var next := Open(Maps(), address, movesense);
      descriptorWriteQueues := next.descriptorQueues;
      isWritingDescriptors := next.writingDescriptors;
      characteristicWriteQueues := next.writeQueues;
      isWritingCharacteristics := next.writingWrites;
      events := next.events;
      gattConnections := next.connections;
    }

    /** The Movesense library's `onConnectionComplete`: the serial of the device. */
    method OnMdsConnectionComplete(macAddress: string, serial: string)
      requires Valid()
      modifies this
      ensures Valid()
      ensures movesenseConnectedDevices == old(movesenseConnectedDevices)[macAddress := serial]
      ensures Maps() == old(Maps())
    {
      movesenseConnectedDevices := movesenseConnectedDevices[macAddress := serial];
    }

    /** `getMovesenseSerial`. */
    function GetMovesenseSerial(address: string): Option<string>
      reads this
    {
      if address in movesenseConnectedDevices then Some(movesenseConnectedDevices[address]) else None
    }

    /** `cleanupDevice`: the address leaves all six maps; other addresses keep theirs. */
    method CleanupDevice(address: string)
      requires Valid()
      modifies this
      ensures Valid()
      ensures Maps() == Cleanup(old(Maps()), address)
      ensures movesenseConnectedDevices == old(movesenseConnectedDevices) - {address}
    {
      CleanupKeeps(Maps(), address);
      gattConnections := gattConnections - {address};
      movesenseConnectedDevices := movesenseConnectedDevices - {address};
      descriptorWriteQueues := descriptorWriteQueues - {address};
      isWritingDescriptors := isWritingDescriptors - {address};
      characteristicWriteQueues := characteristicWriteQueues - {address};
      isWritingCharacteristics := isWritingCharacteristics - {address};
    }

    /** `onConnectionStateChange`: on success and connected, the device is
        marked connected and given the supported-PHY string; on success and
        disconnected, or on any error, it is cleaned up and marked
        disconnected; any other new state changes nothing. */
    method OnConnectionStateChange(address: string, status: int, newState: int, deviceName: Option<string>, le2M: bool, leCoded: bool)
      requires Valid()
      modifies this, repository
      ensures Valid()
      ensures movesenseConnectedDevices == if status != GATT_SUCCESS || newState == STATE_DISCONNECTED
        then old(movesenseConnectedDevices) - {address} else old(movesenseConnectedDevices)
      ensures repository.latestData == old(repository.latestData)
      ensures status == GATT_SUCCESS && newState == STATE_CONNECTED ==>
        && Maps() == old(Maps())
        && repository.scannedDevices == Update(Update(old(repository.scannedDevices), address, ConnectionState(true)), address, DeviceSupportedPhy(SupportedPhy(le2M, leCoded)))
        && repository.statusText == "Connected to " + deviceName.GetOr("Unknown")
      ensures status == GATT_SUCCESS && newState == STATE_DISCONNECTED ==>
        && Maps() == Cleanup(old(Maps()), address)
        && repository.scannedDevices == Update(old(repository.scannedDevices), address, ConnectionState(false))
        && repository.statusText == "Disconnected from " + deviceName.GetOr("Unknown")
      ensures status != GATT_SUCCESS ==>
        && Maps() == Cleanup(old(Maps()), address)
        && repository.scannedDevices == Update(old(repository.scannedDevices), address, ConnectionState(false))
        && repository.statusText == "Connection error: " + IntToString(status)
      ensures status == GATT_SUCCESS && newState != STATE_CONNECTED && newState != STATE_DISCONNECTED ==>
        && Maps() == old(Maps())
        && repository.scannedDevices == old(repository.scannedDevices)
        && repository.statusText == old(repository.statusText)
    {
      var name := deviceName.GetOr("Unknown");
      if status == GATT_SUCCESS {
        if newState == STATE_CONNECTED {
          repository.UpdateDevice(address, ConnectionState(true));
          repository.UpdateStatus("Connected to " + name);
          repository.UpdateDevice(address, DeviceSupportedPhy(SupportedPhy(le2M, leCoded)));
        } else if newState == STATE_DISCONNECTED {
          CleanupDevice(address);
          repository.UpdateDevice(address, ConnectionState(false));
          repository.UpdateStatus("Disconnected from " + name);
        }
      } else {
        CleanupDevice(address);
        repository.UpdateDevice(address, ConnectionState(false));
        repository.UpdateStatus("Connection error: " + IntToString(status));
      }
    }

    /** `onPhyRead` and `onPhyUpdate`, which do the same. */
    method OnPhyChanged(address: string, txPhy: int, rxPhy: int, status: int)
      modifies repository
      ensures repository.scannedDevices == if status == GATT_SUCCESS
        then Update(old(repository.scannedDevices), address, DevicePhy(PhyToString(txPhy), PhyToString(rxPhy)))
        else old(repository.scannedDevices)
      ensures repository.statusText == old(repository.statusText)
      ensures repository.latestData == old(repository.latestData)
    {
      if status == GATT_SUCCESS {
        repository.UpdateDevice(address, DevicePhy(PhyToString(txPhy), PhyToString(rxPhy)));
      }
    }

    /** `onReadRemoteRssi`. */
    method OnReadRemoteRssi(address: string, rssi: int, status: int)
      modifies repository
      ensures repository.scannedDevices == if status == GATT_SUCCESS
        then Update(old(repository.scannedDevices), address, DeviceRssi(rssi))
        else old(repository.scannedDevices)
      ensures repository.statusText == old(repository.statusText)
      ensures repository.latestData == old(repository.latestData)
    {
      if status == GATT_SUCCESS {
        repository.UpdateDevice(address, DeviceRssi(rssi));
      }
    }

    // -------------------------------------------------------------------------
    // Descriptor writes

    /** `queueDescriptorWrite`. */
    method QueueDescriptorWrite(address: string, descriptor: GattDescriptor)
      requires Valid()
      modifies this
      ensures Valid()
      ensures Maps() == ServeDescriptors(EnqueueDescriptor(old(Maps()), address, descriptor), address)
      ensures movesenseConnectedDevices == old(movesenseConnectedDevices)
    {
      EnqueueDescriptorKeeps(Maps(), address, descriptor);
      if address in descriptorWriteQueues {
        descriptorWriteQueues := descriptorWriteQueues[address := descriptorWriteQueues[address] + [descriptor]];
        events := events + [DescriptorQueued(address, descriptor)];
      }
      ProcessDescriptorQueue(address);
    }

    /** `processDescriptorQueue`. */
    method ProcessDescriptorQueue(address: string)
      requires Valid()
      modifies this
      ensures Valid()
      ensures Maps() == ServeDescriptors(old(Maps()), address)
      ensures movesenseConnectedDevices == old(movesenseConnectedDevices)
    {
      ServeDescriptorsKeeps(Maps(), address);
      if address in isWritingDescriptors && isWritingDescriptors[address] {
        return;
      }
      if address !in descriptorWriteQueues {
        return;
      }
      var queue := descriptorWriteQueues[address];
      if queue == [] {
        return;
      }
      var descriptor := queue[0];
      descriptorWriteQueues := descriptorWriteQueues[address := queue[1..]];
      isWritingDescriptors := isWritingDescriptors[address := true];
      if address in gattConnections {
        events := events + [DescriptorWritten(address, descriptor)];
      }
    }

    /** `onDescriptorWrite`: the flag goes down, the notification state is
        updated, and the queue is served. The update touches only the
        repository, so it is made first here. */
    method OnDescriptorWrite(address: string, descriptor: GattDescriptor, status: int, deviceName: Option<string>)
      requires Valid()
      modifies this, repository, deviceConfigManager
      ensures Valid()
      ensures Maps() == ServeDescriptors(AckDescriptor(old(Maps()), address), address)
      ensures movesenseConnectedDevices == old(movesenseConnectedDevices)
      ensures deviceConfigManager.currentConfig == old(deviceConfigManager.currentConfig)
      ensures deviceConfigManager.stored == old(deviceConfigManager.stored)
      ensures repository.scannedDevices == NotificationUpdate(old(repository.scannedDevices), old(deviceConfigManager.currentConfig), address, descriptor, status, deviceName)
      ensures repository.statusText == old(repository.statusText)
      ensures repository.latestData == old(repository.latestData)
    {
      UpdateNotificationState(address, descriptor, status, deviceName);
      AckDescriptorKeeps(Maps(), address);
      isWritingDescriptors := isWritingDescriptors[address := false];
      events := events + [DescriptorWriteDone(address)];
      ProcessDescriptorQueue(address);
    }

    /** The middle of `onDescriptorWrite`. */
    method UpdateNotificationState(address: string, descriptor: GattDescriptor, status: int, deviceName: Option<string>)
      modifies repository, deviceConfigManager
      ensures deviceConfigManager.currentConfig == old(deviceConfigManager.currentConfig)
      ensures deviceConfigManager.stored == old(deviceConfigManager.stored)
      ensures repository.scannedDevices == NotificationUpdate(old(repository.scannedDevices), old(deviceConfigManager.currentConfig), address, descriptor, status, deviceName)
      ensures repository.statusText == old(repository.statusText)
      ensures repository.latestData == old(repository.latestData)
    {
      if status == GATT_SUCCESS && descriptor.uuid == CCCD_UUID {
        var isEnabled := descriptor.value != DISABLE_NOTIFICATION_VALUE;
        var name := ResolveName(deviceName.GetOr("Unknown"), descriptor.serviceUuid, descriptor.characteristicUuid);
        if name.Some? {
          repository.UpdateDevice(address, CharacteristicNotificationState(name.value, isEnabled));
        }
      }
    }

    /** `configPair?.second?.name ?: findCharacteristicByUuid(…)?.name`. */
    method ResolveName(deviceName: string, serviceUuid: string, characteristicUuid: string) returns (r: Option<string>)
      modifies deviceConfigManager
      ensures deviceConfigManager.currentConfig == old(deviceConfigManager.currentConfig)
      ensures deviceConfigManager.stored == old(deviceConfigManager.stored)
      ensures r == ResolvedName(deviceConfigManager.currentConfig, deviceName, serviceUuid, characteristicUuid)
    {
      var pair := deviceConfigManager.FindServiceAndCharacteristic(Some(deviceName), serviceUuid, characteristicUuid);
      if pair.Some? {
        return Some(pair.value.1.name);
      }
      var byUuid := deviceConfigManager.FindCharacteristicByUuid(characteristicUuid);
      if byUuid.Some? {
        return Some(byUuid.value.name);
      }
      return None;
    }

    // -------------------------------------------------------------------------
    // Characteristic writes

    /** `queueCharacteristicWrite`. */
    method QueueCharacteristicWrite(address: string, characteristic: GattCharacteristic, data: seq<byte>)
      requires Valid()
      modifies this
      ensures Valid()
      ensures Maps() == ServeWrites(EnqueueWrite(old(Maps()), address, CharacteristicWrite(characteristic, data)), address)
      ensures movesenseConnectedDevices == old(movesenseConnectedDevices)
    {
      var w := CharacteristicWrite(characteristic, data);
      EnqueueWriteKeeps(Maps(), address, w);
      if address in characteristicWriteQueues {
        characteristicWriteQueues := characteristicWriteQueues[address := characteristicWriteQueues[address] + [w]];
        events := events + [CharacteristicQueued(address, w)];
      }
      ProcessCharacteristicQueue(address);
    }

    /** `processCharacteristicQueue`. */
    method ProcessCharacteristicQueue(address: string)
      requires Valid()
      modifies this
      ensures Valid()
      ensures Maps() == ServeWrites(old(Maps()), address)
      ensures movesenseConnectedDevices == old(movesenseConnectedDevices)
    {
      ServeWritesKeeps(Maps(), address);
      if address in isWritingCharacteristics && isWritingCharacteristics[address] {
        return;
      }
      if address !in characteristicWriteQueues {
        return;
      }
      var queue := characteristicWriteQueues[address];
      if queue == [] {
        return;
      }
      var w := queue[0];
      characteristicWriteQueues := characteristicWriteQueues[address := queue[1..]];
      isWritingCharacteristics := isWritingCharacteristics[address := true];
      if address !in gattConnections {
        return;
      }
      events := events + [CharacteristicWritten(address, w)];
    }

    /** `onCharacteristicWrite`. */
    method OnCharacteristicWrite(address: string)
      requires Valid()
      modifies this
      ensures Valid()
      ensures Maps() == ServeWrites(AckWrite(old(Maps()), address), address)
      ensures movesenseConnectedDevices == old(movesenseConnectedDevices)
    {
      AckWriteKeeps(Maps(), address);
      isWritingCharacteristics := isWritingCharacteristics[address := false];
      events := events + [CharacteristicWriteDone(address)];
      ProcessCharacteristicQueue(address);
    }
  }
}
