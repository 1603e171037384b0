# bleiot, modelled in Dafny

bleiot is an Android gateway. It scans for Bluetooth Low Energy sensors,
connects to them and decodes their characteristic values. Movesense devices
are reached through the Movesense whiteboard as well. The gateway enriches
each decoded reading with device and gateway facts and publishes it over
MQTT. Which characteristics a device offers, how each is decoded and the MQTT
topic it goes to come from a YAML device configuration, downloaded from a
server. A companion Python script turns the same catalogue into EMQX
InfluxDB actions and rules.

This project models the gateway's logic, meaning its decoders, its
bookkeeping and the catalogue translator, and proves properties of that
model. It has one Dafny module per source file:

- `BleCharacteristics` (BleCharacteristicInfo.dfy) tests the GATT property
  bits (section 3.3.1.1 of Volume 3 Part G of the Bluetooth Core
  Specification).
- `BleDataParsers` covers the heart-rate decoder (section 3.1 of the Heart
  Rate Service specification, HRS v1.0) and the ST battery,
  battery-level, custom-temperature and 4-byte-integer decoders. Each has
  its length checks, its offset bookkeeping and its value ranges.
- `GenericStructParser` covers `unpack`: schema fields read in order, in
  the schema's byte order, until the buffer runs out.
- `DeviceConfiguration` covers the configuration records, the device
  lookup (an exact key first, then a case-insensitive partial match), the
  service/characteristic lookups, `parseCharacteristicData` and the
  manager's configuration cache.
- `Repositories` covers the repository's table of device states and its
  field updates.
- `BleManagement` covers the BLE manager's per-address maps. Each address
  has a FIFO of descriptor writes and a FIFO of characteristic writes, each
  with its in-flight flag. The model proves that at most one write of each
  kind is outstanding and that writes go out in queue order. The GATT calls
  and callbacks are recorded as a sequence of events.
- `SensorData` covers the routing of characteristic bytes to a decoder, the
  reassembly of two-part Movesense IMU9 packets, the payload enrichment and
  publication.
- `ViewModel` covers the scan screen's insertion-ordered device map, the
  scan toggle and retain-connected rule, the UUID and whiteboard additions
  without duplicates, and the derived device list.
- `MqttService` covers the CCCD enable/disable selection, the whiteboard
  subscription table and the re-timestamping of Samples arrays.
- `RemoteConfig` covers the YAML-to-JSON tree conversion and the order
  download, parse, then save.
- `EmqxQueueCreator` covers measurement names, line-protocol write
  templates, rule SQL, skip rules and KeyError aborts. Each POST becomes
  its request record, and the model proves that every action is followed
  by the rule routing to it.

The helper modules are `Wrappers` (Option and Result), `Bytes` (bytes,
little- and big-endian words, two's complement, and Kotlin `Int` bit
operations on bit patterns), `Text` (ASCII case folding, containment, join,
decimal rendering) and `Values` (the dynamic values of decoder maps and
JSON trees).

Where the source mutates state, the model does too. The BLE manager, the
repository, the view model, the service, the configuration manager, the
sensor data manager and the remote configuration manager are classes whose
methods update fields. Each method's new state is tied to a specification
function of the old state, and the invariants and lemmas are proved about
those functions. Loops of the source (RR intervals, struct fields, lookups,
the Samples rewrite, the CCCD loops, the script's nested loops) are `while`
loops with invariants.

Two places where the code does something other than what surrounding
names or expressions suggest, which the model follows as written:
- The `custom_temperature` branch of `parseCharacteristicData` computes
  the raw value divided by ten, then discards it and returns the raw value
  (`DeviceConfiguration.DecodeKindAgrees`).
- Callers pass four arguments to `findServiceAndCharacteristic`, which is
  declared with three. The model uses the declared three-argument lookup.

## Model

| member | source | states |
|---|---|---|
| BleCharacteristics.NewInfo | app/src/main/java/it/unisalento/bleiot/BleCharacteristicInfo.kt:5-9 | a new entry keeps its uuid and property bits, and notifications start off |
| BleCharacteristics.CanRead | app/src/main/java/it/unisalento/bleiot/BleCharacteristicInfo.kt:10-11 | readable if and only if the Read property bit (bit 1) is set |
| BleCharacteristics.CanWrite | app/src/main/java/it/unisalento/bleiot/BleCharacteristicInfo.kt:12-13 | writable if and only if the Write property bit (bit 3) is set |
| BleCharacteristics.CanNotify | app/src/main/java/it/unisalento/bleiot/BleCharacteristicInfo.kt:14-15 | notifiable if and only if the Notify bit (4) or the Indicate bit (5) is set, so an indicate-only characteristic counts |
| BleCharacteristics.CapabilitiesIgnoreNotifying | app/src/main/java/it/unisalento/bleiot/BleCharacteristicInfo.kt:10-15 | the three capabilities depend on the property bits alone, not on whether notifications are on |
| BleDataParsers.HeartRateEnd | app/src/main/java/it/unisalento/bleiot/BleDataParsers.kt:36-57 | the offset after the heart-rate field never passes the end of the value (a 16-bit field that does not fit is not consumed) |
| BleDataParsers.HeartRateValue | app/src/main/java/it/unisalento/bleiot/BleDataParsers.kt:36-57 | the heart rate is a 16-bit unsigned value |
| BleDataParsers.EnergyValue | app/src/main/java/it/unisalento/bleiot/BleDataParsers.kt:59-64 | the energy expended is a 16-bit unsigned value |
| BleDataParsers.RRStart | app/src/main/java/it/unisalento/bleiot/BleDataParsers.kt:59-66 | the RR intervals start within the value |
| BleDataParsers.RRWords | app/src/main/java/it/unisalento/bleiot/BleDataParsers.kt:66-74 | every RR interval is a 16-bit unsigned value |
| BleDataParsers.HeartRateSpecFacts | app/src/main/java/it/unisalento/bleiot/BleDataParsers.kt:24-89 | from two bytes on, the decoder gives a record whose flags and five flag bits are byte 0's; an 8-bit heart rate is byte 1; the energy key is present exactly when its flag is set and two bytes follow the heart rate; the RR list is present exactly when its flag is set and a whole word follows, with one interval per whole remaining word |
| BleDataParsers.ParseHeartRateMeasurement | app/src/main/java/it/unisalento/bleiot/BleDataParsers.kt:18-98 | the offset-advancing decoder computes the layout reading of the value, and gives null exactly below two bytes |
| BleDataParsers.ReadRRIntervals | app/src/main/java/it/unisalento/bleiot/BleDataParsers.kt:66-74 | the RR loop reads the consecutive little-endian words from its start offset and stops with at most one byte left |
| BleDataParsers.RRWordCount | app/src/main/java/it/unisalento/bleiot/BleDataParsers.kt:69-73 | the loop reads one interval per whole word left, rounding down |
| BleDataParsers.RRWordAt | app/src/main/java/it/unisalento/bleiot/BleDataParsers.kt:69-73 | interval i is the little-endian word at offset start+2i, and both its bytes are inside the value |
| BleDataParsers.EncodeWord | app/src/main/java/it/unisalento/bleiot/BleDataParsers.kt:40 | the two bytes written for a word read back as that word |
| BleDataParsers.EncodeWords | app/src/main/java/it/unisalento/bleiot/BleDataParsers.kt:69-73 | a list of words is written as two bytes per word |
| BleDataParsers.FlagBits | app/src/main/java/it/unisalento/bleiot/BleDataParsers.kt:25-32 | the flags byte of an encoded measurement has bit 0 for the 16-bit format, bit 1 for contact detected, bit 2 for contact supported, bit 3 for energy present and bit 4 for RR intervals present |
| BleDataParsers.DecodeWords | app/src/main/java/it/unisalento/bleiot/BleDataParsers.kt:66-74 | the RR loop started after any prefix reads back exactly the words written there |
| BleDataParsers.HeartRateRoundTrip | app/src/main/java/it/unisalento/bleiot/BleDataParsers.kt:18-98 | decoding an encoded measurement gives back its heart rate, flags, energy and RR intervals (every encodable measurement round-trips) |
| BleDataParsers.ParseSTBatteryStruct | app/src/main/java/it/unisalento/bleiot/BleDataParsers.kt:106-145 | null exactly below nine bytes; otherwise four 16-bit words and the status, which is byte 8 |
| BleDataParsers.EncodeBatteryUpdate | app/src/main/java/it/unisalento/bleiot/BleDataParsers.kt:113-128 | the firmware's update is nine bytes |
| BleDataParsers.STBatteryRoundTrip | app/src/main/java/it/unisalento/bleiot/BleDataParsers.kt:113-128 | the decoder reads back every update the firmware writes |
| BleDataParsers.STBatteryEncodeParse | app/src/main/java/it/unisalento/bleiot/BleDataParsers.kt:106-145 | every nine bytes decode, and encoding the result gives the bytes back: the decoder loses nothing |
| BleDataParsers.ParseBatteryLevel | app/src/main/java/it/unisalento/bleiot/BleDataParsers.kt:153-164 | null exactly for the empty value; otherwise the level is byte 0 read as a signed byte, so it lies in -128..127 |
| BleDataParsers.BatteryLevelRoundTrip | app/src/main/java/it/unisalento/bleiot/BleDataParsers.kt:153-164 | a level sent as a signed byte comes back as itself, whatever follows it |
| BleDataParsers.TemperatureRaw | app/src/main/java/it/unisalento/bleiot/BleDataParsers.kt:179-181 | the fold of the bytes from 6 on is a 32-bit signed value: 0 for exactly six bytes, and the little-endian value of bytes 6.. wrapped to 32 bits when at most four of them follow |
| BleDataParsers.ParseCustomTemperature | app/src/main/java/it/unisalento/bleiot/BleDataParsers.kt:172-196 | null exactly below six bytes; the raw value is the fold; the temperature is the raw value divided by 10, rounding toward zero as Kotlin's integer division does |
| BleDataParsers.Parse4ByteInteger | app/src/main/java/it/unisalento/bleiot/BleDataParsers.kt:201-206 | null exactly below four bytes; otherwise the first four bytes read little-endian as a 32-bit signed integer |
| BleDataParsers.Parse4ByteIntegerIgnoresTail | app/src/main/java/it/unisalento/bleiot/BleDataParsers.kt:201-206 | bytes after the fourth do not change the result |
| BleDataParsers.Parse4ByteIntegerRoundTrip | app/src/main/java/it/unisalento/bleiot/BleDataParsers.kt:201-206 | every 32-bit signed integer written as four little-endian bytes reads back as itself, whatever follows |
| GenericStructParser.OrderOf | app/src/main/java/it/unisalento/bleiot/GenericeStructParser.kt:11-15 | little-endian if and only if the schema names LITTLE_ENDIAN in any letter case; big-endian otherwise |
| GenericStructParser.Width | app/src/main/java/it/unisalento/bleiot/GenericeStructParser.kt:24-36 | every known type has a width, of 1, 2, 4 or 8 bytes, and only unknown types have none |
| GenericStructParser.DecodeField | app/src/main/java/it/unisalento/bleiot/GenericeStructParser.kt:24-34 | byte, short, int and long values lie in their signed ranges; ushort and uint values are the field's bytes read unsigned (the mask of the signed read); float and double are kept as their bit patterns |
| GenericStructParser.Step | app/src/main/java/it/unisalento/bleiot/GenericeStructParser.kt:20-37 | the buffer position never passes the end of the bytes |
| GenericStructParser.Run | app/src/main/java/it/unisalento/bleiot/GenericeStructParser.kt:20-38 | decoding any prefix of the schema leaves the position within the bytes |
| GenericStructParser.RunSnoc | app/src/main/java/it/unisalento/bleiot/GenericeStructParser.kt:20-38 | decoding one more field is one more turn of the loop on what the earlier fields gave |
| GenericStructParser.Unpack | app/src/main/java/it/unisalento/bleiot/GenericeStructParser.kt:8-40 | unpack picks the byte order from the schema and returns the fields' decoding: the map, or the error the loop raised |
| GenericStructParser.UnpackFields | app/src/main/java/it/unisalento/bleiot/GenericeStructParser.kt:18-39 | the loop with its early break computes the decoding of the whole field list |
| GenericStructParser.ReadField | app/src/main/java/it/unisalento/bleiot/GenericeStructParser.kt:24-37 | one turn of the loop with bytes left: the type dispatch, the underflow of a read cut short, and the store under the field's name |
| GenericStructParser.LaterFieldsIgnored | app/src/main/java/it/unisalento/bleiot/GenericeStructParser.kt:22 | once the bytes are used up, later fields of any type, unknown ones too, add nothing and raise nothing |
| GenericStructParser.StepAt | app/src/main/java/it/unisalento/bleiot/GenericeStructParser.kt:20-38 | the loop's i-th turn extends the decoding of the first i fields by field i |
| GenericStructParser.IgnoredFrom | app/src/main/java/it/unisalento/bleiot/GenericeStructParser.kt:22 | breaking out with no bytes left gives the same result as decoding the rest of the schema |
| GenericStructParser.FailsFrom | app/src/main/java/it/unisalento/bleiot/GenericeStructParser.kt:35 | returning on an error gives the same result as decoding the rest of the schema |
| GenericStructParser.FailureIsFinal | app/src/main/java/it/unisalento/bleiot/GenericeStructParser.kt:35 | an error ends decoding: more fields keep the same error |
| GenericStructParser.UnsupportedRaisesOnlyWithBytesLeft | app/src/main/java/it/unisalento/bleiot/GenericeStructParser.kt:22-35 | an unknown type raises "unsupported type" with its name and the field's name exactly when it is reached with bytes left; otherwise it is skipped |
| GenericStructParser.FieldConsumesWidth | app/src/main/java/it/unisalento/bleiot/GenericeStructParser.kt:24-37 | a known field read in full moves the position by its width and stores its value under its name, replacing an earlier value of the same name; no other name changes |
| GenericStructParser.AllFieldsDecoded | app/src/main/java/it/unisalento/bleiot/GenericeStructParser.kt:8-40 | with known types and enough bytes, every field is decoded, the position ends after all of them, and the keys are exactly the field names |
| GenericStructParser.NamesSnoc | app/src/main/java/it/unisalento/bleiot/GenericeStructParser.kt:37 | one more field adds exactly its name to the key set |
| GenericStructParser.EncodeField | app/src/main/java/it/unisalento/bleiot/GenericeStructParser.kt:24-32 | a sender writes an integer field in exactly the width the reader consumes |
| GenericStructParser.DecodeEncodeField | app/src/main/java/it/unisalento/bleiot/GenericeStructParser.kt:24-32 | every integer value in range of its type, written in either byte order, is read back as itself |
| Repositories.DefaultState | app/src/main/java/it/unisalento/bleiot/repositories/BleRepository.kt:158-170 | a fresh device state keeps the given name and address and takes every default of the data class: not connected, no services or measures, PHYs "Unknown", rssi 0, empty tag |
| Repositories.PhyToString | app/src/main/java/it/unisalento/bleiot/repositories/BleRepository.kt:32-39 | each of the LE PHY codes 1, 2, 3 and only it gives "1M", "2M", "Coded"; every other code and only those give "Unknown" |
| Repositories.SetNotifying | app/src/main/java/it/unisalento/bleiot/repositories/BleRepository.kt:120-127 | the list keeps its length and order; exactly the entries whose uuid equals the given one ignoring case take the new notifying flag, the others are unchanged |
| Repositories.SetSubscribed | app/src/main/java/it/unisalento/bleiot/repositories/BleRepository.kt:140-146 | the list keeps its length and order; exactly the measures with that exact (case-sensitive) name take the new subscribed flag |
| Repositories.UpdateFrame | app/src/main/java/it/unisalento/bleiot/repositories/BleRepository.kt:60-149 | every `update*` leaves the table unchanged for an unknown address, never adds or removes an address, and changes only the entry of the given address |
| Repositories.ApplyChangesOnlyItsField | app/src/main/java/it/unisalento/bleiot/repositories/BleRepository.kt:60-149 | each update sets its own field(s) to the given value, and restoring those fields gives back the old state: no other field moves |
| Repositories.SetNotifyingIdempotent | app/src/main/java/it/unisalento/bleiot/repositories/BleRepository.kt:116-135 | setting a characteristic's notifying flag twice is setting it once |
| Repositories.SetSubscribedIdempotent | app/src/main/java/it/unisalento/bleiot/repositories/BleRepository.kt:137-149 | setting a measure's subscribed flag twice is setting it once |
| Repositories.UpdateIdempotent | app/src/main/java/it/unisalento/bleiot/repositories/BleRepository.kt:60-149 | every `update*` applied twice with the same arguments gives the table it gave once |
| Repositories.AddOrUpdateFacts | app/src/main/java/it/unisalento/bleiot/repositories/BleRepository.kt:45-58 | the address is added to the table and no other entry changes; a new device gets the default state named "Unknown Device" when nameless; a given rssi and a given name are adopted, and a new device scanned with an rssi is the default state with that rssi; a known one keeps its rssi and name unless new ones are given, and no other field changes |
| Repositories.ClearScanned | app/src/main/java/it/unisalento/bleiot/repositories/BleRepository.kt:151-155 | an address stays if and only if it is excepted or its device is connected, and what stays is unchanged |
| Repositories.BleRepository.constructor | app/src/main/java/it/unisalento/bleiot/repositories/BleRepository.kt:19-26 | the table starts empty, the status "Ready" and the data text empty |
| Repositories.BleRepository.UpdateStatus | app/src/main/java/it/unisalento/bleiot/repositories/BleRepository.kt:28-30 | the status becomes the given text; the table and the data text are unchanged |
| Repositories.BleRepository.UpdateData | app/src/main/java/it/unisalento/bleiot/repositories/BleRepository.kt:41-43 | the data text becomes the given text; nothing else changes |
| Repositories.BleRepository.AddOrUpdateScannedDevice | app/src/main/java/it/unisalento/bleiot/repositories/BleRepository.kt:45-58 | the table becomes the add-or-update of the old one (see AddOrUpdateFacts); the texts are unchanged |
| Repositories.BleRepository.UpdateDevice | app/src/main/java/it/unisalento/bleiot/repositories/BleRepository.kt:60-149 | the table becomes the old one with the field update applied to that address alone (see UpdateFrame); the texts are unchanged |
| Repositories.BleRepository.ClearScannedDevices | app/src/main/java/it/unisalento/bleiot/repositories/BleRepository.kt:151-155 | the table keeps the excepted and the connected devices only; the texts are unchanged |
| DeviceConfiguration.DeviceKeys | app/src/main/java/it/unisalento/bleiot/DeviceConfiguration.kt:8 | a name is a key of the device map if and only if some entry of the list carries it |
| DeviceConfiguration.DistinctKeysCount | app/src/main/java/it/unisalento/bleiot/DeviceConfiguration.kt:8 | when no name repeats, the number of keys, which is what `devices.size` counts, is the length of the list |
| DeviceConfiguration.ExactDevice | app/src/main/java/it/unisalento/bleiot/DeviceConfiguration.kt:63 | the map lookup finds an entry if and only if some key equals the name, and what it finds is stored under that key |
| DeviceConfiguration.FirstPartial | app/src/main/java/it/unisalento/bleiot/DeviceConfiguration.kt:66-72 | a device found partially matches (either name contains the search name, or the search name contains either, ignoring case); nothing is found if and only if no device matches |
| DeviceConfiguration.FirstPartialIsFirst | app/src/main/java/it/unisalento/bleiot/DeviceConfiguration.kt:67-72 | the partial match found is the first matching device in iteration order |
| DeviceConfiguration.FindDevicePrecedence | app/src/main/java/it/unisalento/bleiot/DeviceConfiguration.kt:59-76 | an exact key wins over any partial match; without one the first partial match is taken; a device whose name equals the search name ignoring case is always found |
| DeviceConfiguration.FindInCharacteristics | app/src/main/java/it/unisalento/bleiot/DeviceConfiguration.kt:84-90 | a characteristic found belongs to the list and has the UUID ignoring case; nothing is found if and only if none has it |
| DeviceConfiguration.FindInCharacteristicsIsFirst | app/src/main/java/it/unisalento/bleiot/DeviceConfiguration.kt:84-90 | the characteristic found is the first with that UUID |
| DeviceConfiguration.FindPair | app/src/main/java/it/unisalento/bleiot/DeviceConfiguration.kt:81-93 | a pair found is a service of the device with the service UUID and one of its characteristics with the characteristic UUID, both ignoring case; nothing is found if and only if no service with the UUID holds such a characteristic, so a matching service without one does not stop the search |
| DeviceConfiguration.FindPairIsFirst | app/src/main/java/it/unisalento/bleiot/DeviceConfiguration.kt:81-93 | the pair found is the first in list order: when service i has the UUID and holds a matching characteristic, and no earlier service with the UUID holds one, the result is service i with its first matching characteristic |
| DeviceConfiguration.FindInAppend | app/src/main/java/it/unisalento/bleiot/DeviceConfiguration.kt:100-109 | searching two lists one after the other is searching the first, then the second |
| DeviceConfiguration.FindInServicesFlat | app/src/main/java/it/unisalento/bleiot/DeviceConfiguration.kt:101-107 | the loop over services and their characteristics finds the first match in the flattened list |
| DeviceConfiguration.FindInDevicesFlat | app/src/main/java/it/unisalento/bleiot/DeviceConfiguration.kt:96-111 | the nested device, service and characteristic loops find the first characteristic with the UUID in the flattened list, whatever the device names |
| DeviceConfiguration.ResolvePrecedence | app/src/main/java/it/unisalento/bleiot/DeviceConfiguration.kt:78-111 | the lookup the GATT callbacks make finds nothing without a configuration; it takes the device-specific pair's characteristic when there is one, and otherwise the first characteristic with the UUID on any device; whatever it finds has that UUID and belongs to the configuration |
| DeviceConfiguration.DeviceInConfiguration | app/src/main/java/it/unisalento/bleiot/DeviceConfiguration.kt:59-76 | a device found is one of the configuration's devices |
| DeviceConfiguration.FirstPartialIn | app/src/main/java/it/unisalento/bleiot/DeviceConfiguration.kt:67-72 | a partial match found is one of the listed devices |
| DeviceConfiguration.ServiceCharacteristicsHold | app/src/main/java/it/unisalento/bleiot/DeviceConfiguration.kt:101-102 | every characteristic of every service is in the flattened list |
| DeviceConfiguration.AllCharacteristicsHold | app/src/main/java/it/unisalento/bleiot/DeviceConfiguration.kt:100-102 | every characteristic of every device is in the flattened list |
| DeviceConfiguration.DecodeKind | app/src/main/java/it/unisalento/bleiot/DeviceConfiguration.kt:117-185 | each known data type decodes to null if and only if the value is shorter than its minimum: 4 bytes for the 4-byte types, 6 for custom_temperature, 9 for STBatteryStruct |
| DeviceConfiguration.ParseDataNull | app/src/main/java/it/unisalento/bleiot/DeviceConfiguration.kt:113-190 | a value decodes to null if and only if there is no configuration, its data type is unknown, or it is shorter than its type needs |
| DeviceConfiguration.DecodeKindAgrees | app/src/main/java/it/unisalento/bleiot/DeviceConfiguration.kt:126-185 | the integer branch agrees with parse4ByteInteger and the battery branch with parseSTBatteryStruct; the temperature branch returns the raw fold undivided (0 for exactly six bytes), unlike parseCustomTemperature's temperature |
| DeviceConfiguration.DeviceConfigurationManager.constructor | app/src/main/java/it/unisalento/bleiot/DeviceConfiguration.kt:38-41 | a new manager caches nothing and sees what storage holds |
| DeviceConfiguration.DeviceConfigurationManager.LoadConfigFromStorage | app/src/main/java/it/unisalento/bleiot/DeviceConfiguration.kt:193-198 | a stored string replaces the cache by its decoding; with nothing stored the cache stays |
| DeviceConfiguration.DeviceConfigurationManager.GetDeviceConfiguration | app/src/main/java/it/unisalento/bleiot/DeviceConfiguration.kt:43-48 | returns the cache, which loading cannot change because the decoder is a placeholder that yields nothing |
| DeviceConfiguration.DeviceConfigurationManager.SaveConfiguration | app/src/main/java/it/unisalento/bleiot/DeviceConfiguration.kt:50-57 | the cache becomes the configuration and storage holds its serialization |
| DeviceConfiguration.DeviceConfigurationManager.FindDeviceConfig | app/src/main/java/it/unisalento/bleiot/DeviceConfiguration.kt:59-76 | with a configuration cached, the device lookup (exact key, then first partial match); nothing without a configuration or a name; the state is unchanged |
| DeviceConfiguration.DeviceConfigurationManager.FindServiceAndCharacteristic | app/src/main/java/it/unisalento/bleiot/DeviceConfiguration.kt:78-94 | nothing when no device is found; otherwise the pair search over that device's services, whose result is the first matching pair in list order (FindPairIsFirst); the state is unchanged |
| DeviceConfiguration.DeviceConfigurationManager.FindCharacteristicByUuid | app/src/main/java/it/unisalento/bleiot/DeviceConfiguration.kt:96-111 | the first characteristic with the UUID over every device, service and characteristic; the state is unchanged |
| DeviceConfiguration.DeviceConfigurationManager.ParseCharacteristicData | app/src/main/java/it/unisalento/bleiot/DeviceConfiguration.kt:113-190 | the decoding by the characteristic's data type, on the cached configuration; the device name and address play no part |
| DeviceConfiguration.SearchCharacteristics | app/src/main/java/it/unisalento/bleiot/DeviceConfiguration.kt:84-90 | the innermost loop with its early return finds the first characteristic with the UUID |
| DeviceConfiguration.SearchDevices | app/src/main/java/it/unisalento/bleiot/DeviceConfiguration.kt:100-109 | the device loop computes the nested search |
| DeviceConfiguration.SearchPair | app/src/main/java/it/unisalento/bleiot/DeviceConfiguration.kt:81-93 | the service loop with its early return computes the pair search, so it returns the first matching pair in list order (FindPairIsFirst) |
| DeviceConfiguration.SearchServices | app/src/main/java/it/unisalento/bleiot/DeviceConfiguration.kt:101-108 | the service loop computes the search over one device's characteristics |
| DeviceConfiguration.CacheOnlyHoldsSaved | app/src/main/java/it/unisalento/bleiot/DeviceConfiguration.kt:43-57 | whatever storage holds, a new manager finds no device until a configuration is saved, and after a save it finds the device the saved configuration gives |
| BleManagement.ViewSnoc | app/src/main/java/it/unisalento/bleiot/ble/BleManager.kt:308-342 | one more event changes only the view of its own address |
| BleManagement.ViewAppendOther | app/src/main/java/it/unisalento/bleiot/ble/BleManager.kt:39-48 | events about other addresses leave an address's queued, written and unanswered writes as they were: the per-address maps do not interfere |
| BleManagement.DescriptorsFrame | app/src/main/java/it/unisalento/bleiot/ble/BleManager.kt:43-44 | changing one address's descriptor queue, with events about that address alone, keeps the FIFO discipline of every other address |
| BleManagement.WritesFrame | app/src/main/java/it/unisalento/bleiot/ble/BleManager.kt:47-48 | changing one address's characteristic queue, with events about that address alone, keeps the FIFO discipline of every other address |
| BleManagement.ConnectEvents | app/src/main/java/it/unisalento/bleiot/ble/BleManager.kt:91-105 | a connection's events concern its address alone and end with the GATT connection (after the Movesense request, for a Movesense device) |
| BleManagement.ConnectResets | app/src/main/java/it/unisalento/bleiot/ble/BleManager.kt:84-87 | a connection starts its address's write history afresh: nothing queued, written or unanswered |
| BleManagement.OpenKeeps | app/src/main/java/it/unisalento/bleiot/ble/BleManager.kt:83-105 | opening a new address keeps the invariant: both queues exist for exactly the connected addresses, and each keeps its FIFO discipline |
| BleManagement.DescriptorsReset | app/src/main/java/it/unisalento/bleiot/ble/BleManager.kt:84-85 | a new connection's empty descriptor queue with its flag down meets the FIFO discipline |
| BleManagement.WritesReset | app/src/main/java/it/unisalento/bleiot/ble/BleManager.kt:86-87 | a new connection's empty characteristic queue with its flag down meets the FIFO discipline |
| BleManagement.CleanupKeeps | app/src/main/java/it/unisalento/bleiot/ble/BleManager.kt:291-298 | removing an address from every map keeps the invariant for the others |
| BleManagement.EnqueueDescriptorKeeps | app/src/main/java/it/unisalento/bleiot/ble/BleManager.kt:308-309 | appending to a descriptor queue (or nothing, for an address without one) keeps the invariant |
| BleManagement.ServeDescriptorsKeeps | app/src/main/java/it/unisalento/bleiot/ble/BleManager.kt:314-322 | serving a descriptor queue keeps the invariant: what was written followed by what waits is what was queued, and at most one write is unanswered, none while the flag is down |
| BleManagement.ServeDescriptorsWritesOldest | app/src/main/java/it/unisalento/bleiot/ble/BleManager.kt:314-322 | an idle, non-empty descriptor queue writes the oldest descriptor queued and not yet written, and exactly one write is then unanswered |
| BleManagement.ServeWritesWritesOldest | app/src/main/java/it/unisalento/bleiot/ble/BleManager.kt:331-342 | an idle, non-empty characteristic queue on a connection writes the oldest write queued and not yet written, and exactly one write is then unanswered |
| BleManagement.AckDescriptorKeeps | app/src/main/java/it/unisalento/bleiot/ble/BleManager.kt:223 | lowering the descriptor flag on an answer keeps the invariant |
| BleManagement.EnqueueWriteKeeps | app/src/main/java/it/unisalento/bleiot/ble/BleManager.kt:325-326 | appending to a characteristic queue keeps the invariant |
| BleManagement.ServeWritesKeeps | app/src/main/java/it/unisalento/bleiot/ble/BleManager.kt:331-342 | serving a characteristic queue keeps the invariant, even when the head is dropped for an address without a connection |
| BleManagement.AckWriteKeeps | app/src/main/java/it/unisalento/bleiot/ble/BleManager.kt:251-254 | lowering the characteristic flag on an answer keeps the invariant |
| BleManagement.SupportedPhy | app/src/main/java/it/unisalento/bleiot/ble/BleManager.kt:152-155 | the string starts with "1M", and its length tells which of ", 2M" and ", Coded" follow |
| BleManagement.SupportedPhyInjective | app/src/main/java/it/unisalento/bleiot/ble/BleManager.kt:152-155 | the supported-PHY string determines which PHYs the adapter supports |
| BleManagement.BleManager.constructor | app/src/main/java/it/unisalento/bleiot/ble/BleManager.kt:39-48 | every map starts empty and the invariant holds |
| BleManagement.BleManager.ConnectToDevice | app/src/main/java/it/unisalento/bleiot/ble/BleManager.kt:69-111 | no adapter or an empty address only sets the error status; an address already connected only sets "Already connected to" the name; a new address is recorded with the repository, gets empty queues with flags down and a connection (a Movesense request first for a device whose name contains "Movesense"), with status "Connecting to" the name; the invariant is kept; the Movesense serials and the repository's latest data are unchanged |
| BleManagement.BleManager.OpenConnection | app/src/main/java/it/unisalento/bleiot/ble/BleManager.kt:84-105 | the maps become the opened ones and the invariant is kept |
| BleManagement.BleManager.OnMdsConnectionComplete | app/src/main/java/it/unisalento/bleiot/ble/BleManager.kt:95-98 | the serial is recorded for the address; the connection maps are unchanged |
| BleManagement.BleManager.CleanupDevice | app/src/main/java/it/unisalento/bleiot/ble/BleManager.kt:291-298 | the address leaves all six maps, other addresses keep theirs, and the invariant is kept |
| BleManagement.BleManager.OnConnectionStateChange | app/src/main/java/it/unisalento/bleiot/ble/BleManager.kt:140-173 | on success and connected, the device is marked connected with the supported-PHY string and "Connected to" the name; on success and disconnected, or on an error, the address is cleaned up and marked disconnected with "Disconnected from" the name or "Connection error: " and the status code, and its Movesense serial is removed; any other state changes nothing, and the connected branch keeps the serials; the repository's latest data is unchanged |
| BleManagement.BleManager.OnPhyChanged | app/src/main/java/it/unisalento/bleiot/ble/BleManager.kt:182-192 | on success the device's PHYs become the names of the two codes; otherwise nothing changes; the status and latest data are unchanged |
| BleManagement.BleManager.OnReadRemoteRssi | app/src/main/java/it/unisalento/bleiot/ble/BleManager.kt:194-198 | on success the device's rssi becomes the value read; otherwise nothing changes; the status and latest data are unchanged |
| BleManagement.BleManager.QueueDescriptorWrite | app/src/main/java/it/unisalento/bleiot/ble/BleManager.kt:308-311 | the descriptor is appended to the address's queue (when it has one), then the queue is served; the invariant is kept |
| BleManagement.BleManager.ProcessDescriptorQueue | app/src/main/java/it/unisalento/bleiot/ble/BleManager.kt:314-322 | with the flag down and a non-empty queue, the head is removed, the flag raised and the head written on the connection; otherwise nothing changes; the invariant is kept |
| BleManagement.BleManager.OnDescriptorWrite | app/src/main/java/it/unisalento/bleiot/ble/BleManager.kt:221-249 | the flag goes down and the queue is served; after a successful CCCD write whose characteristic name resolves, that characteristic is marked notifying exactly when the value written is not the disable value; the status, latest data, Movesense serials and configuration are unchanged |
| BleManagement.BleManager.UpdateNotificationState | app/src/main/java/it/unisalento/bleiot/ble/BleManager.kt:225-243 | only a successful CCCD write whose characteristic name resolves changes the device table, and then only that characteristic's notifying flag; the status, latest data and configuration are unchanged |
| BleManagement.BleManager.ResolveName | app/src/main/java/it/unisalento/bleiot/ble/BleManager.kt:234-235 | the name is the device-specific characteristic's, else that of the first characteristic with the UUID on any device, else none |
| BleManagement.BleManager.QueueCharacteristicWrite | app/src/main/java/it/unisalento/bleiot/ble/BleManager.kt:325-328 | the write is appended to the address's queue (when it has one), then the queue is served; the invariant is kept |
| BleManagement.BleManager.ProcessCharacteristicQueue | app/src/main/java/it/unisalento/bleiot/ble/BleManager.kt:331-342 | with the flag down and a non-empty queue, the head is removed and the flag raised before the connection is looked up, and it is written only when there is one; the invariant is kept |
| BleManagement.BleManager.OnCharacteristicWrite | app/src/main/java/it/unisalento/bleiot/ble/BleManager.kt:251-255 | the flag goes down and the queue is served; the invariant is kept |
| SensorData.Enriched | app/src/main/java/it/unisalento/bleiot/data/SensorDataManager.kt:105-130 | a payload that is not a map passes unchanged; a map keeps its other keys and gains exactly the device name ("Unknown" when Android has none), the address, the gateway's name ("Unknown" without an adapter name) and battery, and, when the repository knows the device, its rssi, both PHYs and a non-empty tag |
| SensorData.EnrichData | app/src/main/java/it/unisalento/bleiot/data/SensorDataManager.kt:105-130 | filling a copy of the map key by key computes the enrichment |
| SensorData.Published | app/src/main/java/it/unisalento/bleiot/data/SensorDataManager.kt:93-103 | the data line becomes the name, ": " and the payload's text, the payload is published on the topic after those already published, and the pending parts are untouched |
| SensorData.Combine | app/src/main/java/it/unisalento/bleiot/data/SensorDataManager.kt:83 | the IMU9 buffer is the whole first part followed by the second part without its two header bytes (nothing from a part shorter than that) |
| SensorData.MoveSenseStep | app/src/main/java/it/unisalento/bleiot/data/SensorDataManager.kt:64-91 | an IMU9 data packet becomes the address's pending part, replacing any earlier one, and nothing is published; a part-2 packet removes the pending part; without one it does nothing; other packet types do nothing; other addresses' pending parts never change |
| SensorData.SecondPartCombines | app/src/main/java/it/unisalento/bleiot/data/SensorDataManager.kt:80-89 | a part-2 packet decodes exactly the pending part joined to its data bytes, publishing only when the IMU9 decoder succeeds |
| SensorData.PendingUsedOnce | app/src/main/java/it/unisalento/bleiot/data/SensorDataManager.kt:81 | a pending part is used at most once: a second part-2 packet with no IMU9 packet in between does nothing |
| SensorData.RouteFollowsResolution | app/src/main/java/it/unisalento/bleiot/data/SensorDataManager.kt:33-61 | the bytes are ignored exactly when no characteristic resolves; otherwise they go to the resolved one; the Movesense path is taken exactly for a device-specific entry of type "movesense_read", so such an entry found by UUID alone is decoded like any other |
| SensorData.DataValue | app/src/main/java/it/unisalento/bleiot/data/SensorDataManager.kt:49-51 | the decoded integer, the temperature map and the five-key battery map are passed on as such |
| SensorData.ProcessStep | app/src/main/java/it/unisalento/bleiot/data/SensorDataManager.kt:40-61 | ignored bytes change nothing; a value that does not decode changes nothing; a decoded value is published, enriched, on the characteristic's topic; only the Movesense path touches pending parts |
| SensorData.SensorDataManager.constructor | app/src/main/java/it/unisalento/bleiot/data/SensorDataManager.kt:18-25 | no part is pending and nothing is published |
| SensorData.SensorDataManager.PublishParsedData | app/src/main/java/it/unisalento/bleiot/data/SensorDataManager.kt:93-103 | the state becomes the publication of the enriched payload; the repository's table and status are unchanged |
| SensorData.SensorDataManager.HandleMoveSenseData | app/src/main/java/it/unisalento/bleiot/data/SensorDataManager.kt:64-91 | an empty packet, or a one-byte data packet, raises the index exception and changes nothing; any other packet does the Movesense step |
| SensorData.SensorDataManager.ParseAndPublish | app/src/main/java/it/unisalento/bleiot/data/SensorDataManager.kt:49-52 | decodes the value by its characteristic's data type and publishes it when it decodes |
| SensorData.SensorDataManager.ProcessCharacteristicData | app/src/main/java/it/unisalento/bleiot/data/SensorDataManager.kt:27-62 | routes the bytes by the device-specific lookup, then the UUID-only fallback, and does the step of that route; it raises only on the Movesense path with a packet too short to read; the configuration and the device table are unchanged |
| ViewModel.Put | app/src/main/java/it/unisalento/bleiot/BleViewModel.kt:232 | putting a key sets its entry; a new key goes to the end of the insertion order, a present one keeps its place |
| ViewModel.PutKeeps | app/src/main/java/it/unisalento/bleiot/BleViewModel.kt:232 | putting a device under its own address, with no repeated UUID or measure, keeps the table well formed: each key listed once, listed keys are exactly the entries, each device under its own address |
| ViewModel.Filter | app/src/main/java/it/unisalento/bleiot/BleViewModel.kt:154-157 | the kept keys are exactly those of the order that are in the set |
| ViewModel.FilterDistinct | app/src/main/java/it/unisalento/bleiot/BleViewModel.kt:157 | filtering keeps each key listed at most once |
| ViewModel.Retain | app/src/main/java/it/unisalento/bleiot/BleViewModel.kt:154-157 | the entries kept are exactly those whose address is in the set, unchanged |
| ViewModel.RetainKeeps | app/src/main/java/it/unisalento/bleiot/BleViewModel.kt:157 | keeping a subset of the keys keeps the table well formed |
| ViewModel.Rows | app/src/main/java/it/unisalento/bleiot/BleViewModel.kt:343-354 | one row per entry in the map's order, each carrying that entry's device |
| ViewModel.RowsFacts | app/src/main/java/it/unisalento/bleiot/BleViewModel.kt:347-353 | row i shows the i-th device's address, and its name unless the connect permission is lacking, in which case "Unknown Device" |
| ViewModel.DistinctCount | app/src/main/java/it/unisalento/bleiot/BleViewModel.kt:343 | a map listing each key once has as many values as keys |
| ViewModel.StartScan | app/src/main/java/it/unisalento/bleiot/BleViewModel.kt:125-184 | without a context nothing changes; the device map is either unchanged or reduced to the connected devices; scanning is on afterwards if and only if it was on or the adapter is enabled, the scan permission is granted (or the SDK is below 31) and a scanner is available |
| ViewModel.StopScan | app/src/main/java/it/unisalento/bleiot/BleViewModel.kt:186-201 | the device map is unchanged; the scan is off afterwards if and only if it was off, or there is a context and a scanner and the scan permission is granted or the SDK is below 31 |
| ViewModel.ScanPeriodElapsed | app/src/main/java/it/unisalento/bleiot/BleViewModel.kt:164-177 | after the scan period the flag is down whatever the permission, and the device map is unchanged |
| ViewModel.ScanResult | app/src/main/java/it/unisalento/bleiot/BleViewModel.kt:205-239 | the scan flag and the UI are unchanged; a named device not yet in the map is added at its end exactly when there is a context and the connect permission is granted or the SDK is below 31; otherwise the map is unchanged |
| ViewModel.AddServiceUuid | app/src/main/java/it/unisalento/bleiot/BleViewModel.kt:424-443 | an unknown address or a UUID already listed changes nothing; otherwise only that device's list changes, gaining the UUID at its end, and the insertion order is kept |
| ViewModel.AddWhiteboard | app/src/main/java/it/unisalento/bleiot/BleViewModel.kt:407-418 | an unknown address or a measure already listed changes nothing; otherwise only that device's list changes, gaining the measure at its end, and the insertion order is kept |
| ViewModel.DevicesList | app/src/main/java/it/unisalento/bleiot/BleViewModel.kt:329-357 | the device map and the scan flag are unchanged; with a context the UI lists exactly as many rows as devices |
| ViewModel.AppendDistinct | app/src/main/java/it/unisalento/bleiot/BleViewModel.kt:413 | appending an element not yet listed keeps the list free of repeats |
| ViewModel.StartScanKeeps | app/src/main/java/it/unisalento/bleiot/BleViewModel.kt:150-157 | starting a scan keeps the table well formed |
| ViewModel.ScanResultKeeps | app/src/main/java/it/unisalento/bleiot/BleViewModel.kt:231-232 | adding a scanned device keeps the table well formed |
| ViewModel.AddServiceUuidKeeps | app/src/main/java/it/unisalento/bleiot/BleViewModel.kt:430-438 | adding a UUID keeps the table well formed, so no device ever lists a UUID twice |
| ViewModel.AddWhiteboardKeeps | app/src/main/java/it/unisalento/bleiot/BleViewModel.kt:411-416 | adding a measure keeps the table well formed, so no device ever lists a measure twice |
| ViewModel.StartScanRetainsConnected | app/src/main/java/it/unisalento/bleiot/BleViewModel.kt:150-182 | a scan that starts keeps exactly the devices that are connected, unchanged, each listed once, and turns scanning on |
| ViewModel.BleViewModel.constructor | app/src/main/java/it/unisalento/bleiot/BleViewModel.kt:39-56 | not scanning, no scanner, an empty map and the default UI state |
| ViewModel.BleViewModel.OnScanClicked | app/src/main/java/it/unisalento/bleiot/BleViewModel.kt:113-119 | starts the scan when idle and stops it when scanning; the table stays well formed |
| ViewModel.BleViewModel.StartScanning | app/src/main/java/it/unisalento/bleiot/BleViewModel.kt:125-184 | the state becomes the start-scan state (see StartScan); the table stays well formed |
| ViewModel.BleViewModel.StopScanning | app/src/main/java/it/unisalento/bleiot/BleViewModel.kt:186-201 | the state becomes the stop-scan state (see StopScan) |
| ViewModel.BleViewModel.OnScanPeriodElapsed | app/src/main/java/it/unisalento/bleiot/BleViewModel.kt:164-177 | the state becomes the end-of-period state (see ScanPeriodElapsed) |
| ViewModel.BleViewModel.OnScanResult | app/src/main/java/it/unisalento/bleiot/BleViewModel.kt:205-239 | the state becomes the scan-result state (see ScanResult); the table stays well formed |
| ViewModel.BleViewModel.UpdateDeviceUuid | app/src/main/java/it/unisalento/bleiot/BleViewModel.kt:424-443 | the state becomes the one AddServiceUuid describes; the table stays well formed |
| ViewModel.BleViewModel.UpdateDeviceWhiteBoard | app/src/main/java/it/unisalento/bleiot/BleViewModel.kt:407-418 | the state becomes the one AddWhiteboard describes; the table stays well formed |
| ViewModel.BleViewModel.UpdateDevicesList | app/src/main/java/it/unisalento/bleiot/BleViewModel.kt:329-357 | the UI's device list becomes the rows of the map, with the connect permission checked once |
| ViewModel.BleViewModel.UpdateConnectedDevices | app/src/main/java/it/unisalento/bleiot/BleViewModel.kt:302-307 | the connected set becomes the service's, or empty without a service; nothing else changes |
| ViewModel.BleViewModel.UpdateStatus | app/src/main/java/it/unisalento/bleiot/BleViewModel.kt:310-315 | only the status text changes |
| ViewModel.BleViewModel.UpdateData | app/src/main/java/it/unisalento/bleiot/BleViewModel.kt:317-321 | only the data text changes |
| MqttService.FindExact | app/src/main/java/it/unisalento/bleiot/BleAndMqttService.kt:235 | a characteristic found has exactly the UUID and is one of the service's; nothing is found if and only if no characteristic has it |
| MqttService.FindExactIsFirst | app/src/main/java/it/unisalento/bleiot/BleAndMqttService.kt:235 | whenever some characteristic has the UUID one is found, and it is the first one in the service's list |
| MqttService.ServiceDisable | app/src/main/java/it/unisalento/bleiot/BleAndMqttService.kt:252-259 | at most one write per service; a write is queued if and only if a characteristic with the UUID exists and has a CCCD, and it is a DISABLE write of that CCCD for that characteristic of that service |
| MqttService.ServiceEnable | app/src/main/java/it/unisalento/bleiot/BleAndMqttService.kt:234-243 | at most one write per service; there is one exactly when the service has a characteristic with that exact UUID that has the notify property and a CCCD, and it is the ENABLE write to that characteristic's CCCD in that service |
| MqttService.EnableVersusDisable | app/src/main/java/it/unisalento/bleiot/BleAndMqttService.kt:234-260 | enabling writes exactly what disabling writes, with the ENABLE value, when the matching characteristic has the notify property bit, and nothing when it lacks it |
| MqttService.EnableWritesFacts | app/src/main/java/it/unisalento/bleiot/BleAndMqttService.kt:234-260 | over all services, enabling never queues more writes than disabling, which never queues more than one per service; every enable write carries the ENABLE value and every disable write the DISABLE value, both to the CCCD of the requested characteristic |
| MqttService.QueueAllKeeps | app/src/main/java/it/unisalento/bleiot/BleAndMqttService.kt:234-260 | queuing a sequence of descriptor writes through the BLE manager keeps its per-address FIFO discipline and leaves the connection table unchanged |
| MqttService.RewriteSamples | app/src/main/java/it/unisalento/bleiot/BleAndMqttService.kt:294-303 | the loop fails if and only if some sample is not an integer; otherwise the new array is as long as the old and entry i holds sample i as "value" and the base timestamp plus 8 i as "stimestamp" |
| MqttService.MovesenseEnriched | app/src/main/java/it/unisalento/bleiot/BleAndMqttService.kt:284-287 | the payload keeps every other key and gains exactly deviceName "Movesense <serial>", the address, the gateway name ("Unknown" without an adapter name) and the battery level |
| MqttService.NotificationPayload | app/src/main/java/it/unisalento/bleiot/BleAndMqttService.kt:281-315 | a notification that is not a JSON object yields nothing; one accepted has exactly the enriched keys, each but Body as enriched; a payload without Body, or whose Body has no Samples, is just the enriched payload |
| MqttService.SamplesRestamped | app/src/main/java/it/unisalento/bleiot/BleAndMqttService.kt:289-305 | when Body holds an integer Samples array and a numeric Timestamp, the payload is produced, Body keeps its keys, and Samples keeps its length with sample i restamped at Timestamp plus 8 i |
| MqttService.BuildPayload | app/src/main/java/it/unisalento/bleiot/BleAndMqttService.kt:281-306 | updating the parsed message in place step by step computes the notification payload, failing exactly where org.json throws |
| MqttService.NewSubscription | app/src/main/java/it/unisalento/bleiot/BleAndMqttService.kt:277-279 | the subscription listens on the MDS event listener URI with the contract {"Uri": "<serial><path>"} and remembers the serial, address, measure name and topic |
| MqttService.Subscribe | app/src/main/java/it/unisalento/bleiot/BleAndMqttService.kt:264-326 | only with a connection, a configured measure, a known serial and a "subscribe" method is the subscription stored under the measure's path, replacing any earlier one, and the measure marked subscribed; otherwise nothing changes; no key other than that path is ever added |
| MqttService.Unsubscribe | app/src/main/java/it/unisalento/bleiot/BleAndMqttService.kt:329-340 | only with a connection and a stored subscription for the measure's path is it removed and the measure marked unsubscribed; otherwise nothing changes |
| MqttService.SubscribeOverwrites | app/src/main/java/it/unisalento/bleiot/BleAndMqttService.kt:323 | subscribing twice to the same path keeps only the later subscription |
| MqttService.SubscribeThenUnsubscribe | app/src/main/java/it/unisalento/bleiot/BleAndMqttService.kt:264-340 | subscribing to a path not yet subscribed and then unsubscribing gives back the table as it was, with the measure marked unsubscribed |
| MqttService.SetSubscribedTwice | app/src/main/java/it/unisalento/bleiot/BleAndMqttService.kt:324-338 | setting a measure's subscribed flag twice leaves only the later value |
| MqttService.ConnectedAddresses | app/src/main/java/it/unisalento/bleiot/BleAndMqttService.kt:368-370 | an address is listed if and only if the repository knows it and it is connected |
| MqttService.QueueAllSnoc | app/src/main/java/it/unisalento/bleiot/BleAndMqttService.kt:234-260 | queuing one more write is queuing the earlier ones and then that one |
| MqttService.EnableWritesSnoc | app/src/main/java/it/unisalento/bleiot/BleAndMqttService.kt:234-260 | the writes of one more service are the earlier writes followed by that service's write, for enabling and for disabling |
| MqttService.QueueEnableWrites | app/src/main/java/it/unisalento/bleiot/BleAndMqttService.kt:234-244 | the loop over the services leaves the BLE manager with exactly the ENABLE writes of every service queued, in service order |
| MqttService.EnableService | app/src/main/java/it/unisalento/bleiot/BleAndMqttService.kt:235-243 | one service's ENABLE write, if any, is queued after those of the services before it |
| MqttService.QueueDisableWrites | app/src/main/java/it/unisalento/bleiot/BleAndMqttService.kt:252-260 | the loop over the services leaves the BLE manager with exactly the DISABLE writes of every service queued, in service order |
| MqttService.DisableService | app/src/main/java/it/unisalento/bleiot/BleAndMqttService.kt:253-259 | one service's DISABLE write, if any, is queued after those of the services before it |
| MqttService.BleAndMqttService.constructor | app/src/main/java/it/unisalento/bleiot/BleAndMqttService.kt:66 | a new service has no subscriptions and has published nothing |
| MqttService.BleAndMqttService.EnableNotifications | app/src/main/java/it/unisalento/bleiot/BleAndMqttService.kt:225-245 | without a connection or a configured characteristic nothing is queued; otherwise every service's ENABLE write is queued in order, and the Movesense serials are untouched |
| MqttService.BleAndMqttService.DisableNotifications | app/src/main/java/it/unisalento/bleiot/BleAndMqttService.kt:248-261 | without a connection or a configured characteristic nothing is queued; otherwise every service's DISABLE write is queued in order |
| MqttService.BleAndMqttService.EnableSubscription | app/src/main/java/it/unisalento/bleiot/BleAndMqttService.kt:264-326 | the subscription table and devices change exactly as subscribing says, and nothing is published or shown; the status text is unchanged |
| MqttService.BleAndMqttService.DisableSubscription | app/src/main/java/it/unisalento/bleiot/BleAndMqttService.kt:329-340 | the subscription table and devices change exactly as unsubscribing says, and nothing is published or shown; the status text is unchanged |
| MqttService.BleAndMqttService.OnNotification | app/src/main/java/it/unisalento/bleiot/BleAndMqttService.kt:281-316 | a payload org.json rejects changes nothing; an accepted one is shown as "<measure>: <json>" and, when the measure has a topic, published on it after the earlier publications; subscriptions, devices and the status text are untouched |
| RemoteConfig.ToJson | app/src/main/java/it/unisalento/bleiot/RemoteConfigManager.kt:90-100 | null, lists and maps become exactly JSON null, arrays and objects; booleans, integers and strings keep their value; any other object becomes the string of its text; a list keeps its length |
| RemoteConfig.ListConverted | app/src/main/java/it/unisalento/bleiot/RemoteConfigManager.kt:97 | a list becomes the array of its elements converted one by one, in order |
| RemoteConfig.MapConverted | app/src/main/java/it/unisalento/bleiot/RemoteConfigManager.kt:96 | a map becomes the object built by inserting its stringified, converted pairs in order |
| RemoteConfig.ToMapKeys | app/src/main/java/it/unisalento/bleiot/RemoteConfigManager.kt:96 | the converted object's keys are exactly the keys of the pairs |
| RemoteConfig.ToMapLastWins | app/src/main/java/it/unisalento/bleiot/RemoteConfigManager.kt:96 | under each key the object holds the value of the last pair with that key |
| RemoteConfig.ObjectOfMap | app/src/main/java/it/unisalento/bleiot/RemoteConfigManager.kt:90-100 | a YAML map becomes an object keyed exactly by the texts of its keys, each holding the converted value of the last entry whose key has that text |
| RemoteConfig.DuplicateKeyLaterWins | app/src/main/java/it/unisalento/bleiot/RemoteConfigManager.kt:96 | two keys with the same text, such as the integer 1 and the string "1", collapse into one entry holding the later value |
| RemoteConfig.ParseYamlConfig | app/src/main/java/it/unisalento/bleiot/RemoteConfigManager.kt:79-88 | a configuration is returned only when the YAML loads and the decoder accepts the converted tree, and it is what the decoder returns |
| RemoteConfig.DownloadOutcome | app/src/main/java/it/unisalento/bleiot/RemoteConfigManager.kt:59-77 | the download succeeds if and only if the response is successful, has a body and the body parses, and then yields that configuration and that body; an unsuccessful response fails with "HTTP <code>" and a missing body with "Empty body" |
| RemoteConfig.RemoteConfigManager.constructor | app/src/main/java/it/unisalento/bleiot/RemoteConfigManager.kt:21-30 | a new manager starts from the stored raw YAML and update time |
| RemoteConfig.RemoteConfigManager.SaveRawYaml | app/src/main/java/it/unisalento/bleiot/RemoteConfigManager.kt:120-125 | the raw YAML preference holds the content and the update time is the current clock reading |
| RemoteConfig.RemoteConfigManager.DownloadAndSaveConfig | app/src/main/java/it/unisalento/bleiot/RemoteConfigManager.kt:59-77 | on success the configuration is saved and cached, the raw YAML and its time are saved, and the message counts the devices; on every failure the message is the failure's and nothing is saved |
| EmqxQueueCreator.ActionRequest | utils/emqx_dynamic_queue_creator.py:32-53 | the request creates an action carrying the action name and write syntax given, on the Influx1 connector with ms precision |
| EmqxQueueCreator.RuleRequest | utils/emqx_dynamic_queue_creator.py:55-73 | the request creates a rule with the given id, name and SQL whose only action is the InfluxDB action named |
| EmqxQueueCreator.Clean | utils/emqx_dynamic_queue_creator.py:92 | the cleaned name is no longer than the original and holds only lower-case ASCII letters and digits |
| EmqxQueueCreator.CleanMembers | utils/emqx_dynamic_queue_creator.py:92 | a character survives cleaning if and only if it is in the name and is a lower-case letter or digit |
| EmqxQueueCreator.CleanAppend | utils/emqx_dynamic_queue_creator.py:92 | cleaning works character by character: cleaning a concatenation concatenates the cleaned parts, in order |
| EmqxQueueCreator.CleanFixes | utils/emqx_dynamic_queue_creator.py:92 | a name already made only of lower-case letters and digits is left unchanged |
| EmqxQueueCreator.CleanIdempotent | utils/emqx_dynamic_queue_creator.py:92 | cleaning twice is cleaning once |
| EmqxQueueCreator.MeasureName | utils/emqx_dynamic_queue_creator.py:100 | the measurement name is the lower-cased short name, an underscore, then the cleaned entry name, and each part can be read back from it |
| EmqxQueueCreator.StructParts | utils/emqx_dynamic_queue_creator.py:101-102 | every struct field, in order, becomes one integer line-protocol field read from the payload under the field's own name |
| EmqxQueueCreator.PayloadPart | utils/emqx_dynamic_queue_creator.py:140-147 | a payload field is written if and only if its type, float by default, is integer or float; an integer field is written as `name=${payload.path}i`, and a float field (explicit or by default) as the same text without the `i` |
| EmqxQueueCreator.PayloadParts | utils/emqx_dynamic_queue_creator.py:138-149 | the payload field list has at most one part per field |
| EmqxQueueCreator.PayloadPartsAppend | utils/emqx_dynamic_queue_creator.py:139-147 | the payload field list is built field by field in order: the list of a concatenation is the concatenation of the lists |
| EmqxQueueCreator.ArrayPart | utils/emqx_dynamic_queue_creator.py:166-178 | an array field is written if and only if its type, integer by default, is integer or float; an integer field (explicit or by default) is written as `name=${name}i`, read from the name the FOREACH binds, and a float field as the same text without the `i` |
| EmqxQueueCreator.ArrayParts | utils/emqx_dynamic_queue_creator.py:163-181 | the array field list has at most one part per field |
| EmqxQueueCreator.ArrayPartsAppend | utils/emqx_dynamic_queue_creator.py:165-178 | the array field list is built field by field in order: the list of a concatenation is the concatenation of the lists |
| EmqxQueueCreator.ProjectionIgnoresType | utils/emqx_dynamic_queue_creator.py:168-178 | a field of an unknown type is left out of the write syntax, yet every field's projection is the same whatever its type |
| EmqxQueueCreator.Projections | utils/emqx_dynamic_queue_creator.py:165-173 | every array field, whatever its type, is projected once |
| EmqxQueueCreator.PayloadFields | utils/emqx_dynamic_queue_creator.py:136-149 | the jsonPayloadParser loop raises exactly when some field lacks a name or a path, and otherwise produces the payload field list |
| EmqxQueueCreator.ArrayFields | utils/emqx_dynamic_queue_creator.py:158-181 | the jsonArrayParser loop raises exactly when some field lacks a name; otherwise the projections are the two tag aliases followed by one projection per field, in order, and the field list is the array field list |
| EmqxQueueCreator.Publish | utils/emqx_dynamic_queue_creator.py:107-115 | an entry sends an action and then a rule, named action_, rule_ and rule_id_ after the measurement, the rule routing to that action, with the write syntax and SQL given |
| EmqxQueueCreator.CharacteristicShape | utils/emqx_dynamic_queue_creator.py:91-115 | a characteristic sends if and only if it has a struct parser, is not skipped and names every field, and raises if and only if it would send but a field has no name; what it sends is the action writing every field as an integer and the rule selecting everything from its topic |
| EmqxQueueCreator.MeasureShape | utils/emqx_dynamic_queue_creator.py:117-185 | a skipped measure, or one with neither parser, sends nothing; one that sends has its pair named after the measurement, with the payload template and a plain SELECT for a jsonPayloadParser, and the placeholder template and the FOREACH query for a jsonArrayParser |
| EmqxQueueCreator.PayloadParserWins | utils/emqx_dynamic_queue_creator.py:134-156 | when a measure has both parsers, the jsonArrayParser is never consulted |
| EmqxQueueCreator.PairedAppend | utils/emqx_dynamic_queue_creator.py:87-185 | appending two runs of action-then-rule pairs gives a run of pairs |
| EmqxQueueCreator.PairForPaired | utils/emqx_dynamic_queue_creator.py:109-115 | one entry's action and rule form a run of pairs |
| EmqxQueueCreator.ThenPaired | utils/emqx_dynamic_queue_creator.py:87-185 | running one part of the script after another keeps the requests in pairs, whether or not the first part raises |
| EmqxQueueCreator.SkippedEntryContinues | utils/emqx_dynamic_queue_creator.py:95-97 | a skipped characteristic sends nothing and processing continues with the next one |
| EmqxQueueCreator.RaisedEntryStops | utils/emqx_dynamic_queue_creator.py:101-102 | a KeyError on a characteristic ends the run: nothing after it is sent |
| EmqxQueueCreator.CharacteristicsPaired | utils/emqx_dynamic_queue_creator.py:90-115 | a service's characteristics send their requests as action-then-rule pairs |
| EmqxQueueCreator.ServicesPaired | utils/emqx_dynamic_queue_creator.py:89-115 | a device's services send their requests as action-then-rule pairs |
| EmqxQueueCreator.MeasuresPaired | utils/emqx_dynamic_queue_creator.py:119-185 | a device's whiteboard measures send their requests as action-then-rule pairs |
| EmqxQueueCreator.CatalogPaired | utils/emqx_dynamic_queue_creator.py:87-185 | over the whole catalogue, every action sent is immediately followed by the rule that routes to it, named after the same measurement |
| EmqxQueueCreator.TranslateMeasure | utils/emqx_dynamic_queue_creator.py:119-185 | the body of the whiteboard loop, with its field loops, computes the measure's outcome |
| EmqxQueueCreator.TranslateCharacteristics | utils/emqx_dynamic_queue_creator.py:90-115 | the loop over a service's characteristics sends each entry's requests in order and stops at the first KeyError |
| EmqxQueueCreator.TranslateMeasures | utils/emqx_dynamic_queue_creator.py:119-185 | the loop over a device's measures sends each measure's requests in order and stops at the first KeyError |
| EmqxQueueCreator.TranslateServices | utils/emqx_dynamic_queue_creator.py:89-115 | the loop over a device's services sends each service's requests in order and stops at the first KeyError |
| EmqxQueueCreator.TranslateDevice | utils/emqx_dynamic_queue_creator.py:88-185 | a device sends its characteristics' requests in service order, then those of its whiteboard measures when it has a whiteboard |
| EmqxQueueCreator.Translate | utils/emqx_dynamic_queue_creator.py:87-185 | the devices loop sends every device's requests in catalogue order and stops at the first KeyError, so by the catalogue lemma every action is followed by its rule |

## Left out

- Floating point: `/ 10.0`, the float and double branches of the struct parser and the 4-byte float/double decoders keep their operands or bit patterns symbolically (`Values.Tenths`, `IntAsDouble`, `IntAsFloat`, `FloatBits`, `DoubleBits`). No IEEE arithmetic is modelled.
- Case folding is ASCII only. Kotlin's and Python's Unicode case mappings are not modelled.
- I/O: the HTTP calls (OkHttp, `requests.post`), SharedPreferences, Android logging and the script's `print` calls. Responses become parameters, and POSTs become the request records they would send.
- Concurrency and timing: coroutines, StateFlow collection, the conflated UI update throttle, `postDelayed` scan timeouts, the 3 s auto-subscribe, the periodic RSSI runnable and the tag-name debounce. The model treats each operation as atomic.
- Foreign libraries: the GATT calls and the Movesense MDS SDK are recorded as events, or not modelled. `parseMoveSenseChar` and `parseCombinedIMU9` are parameters, because their definitions are not part of this model.
- `findConfChar` and `findMeasurePath` are parameters of the service model (`MqttService.ConfigLookups`), because their definitions are not part of this model. `JSONObject.toString` is a parameter (`render`).
- The SnakeYAML loader and the `kotlinx.serialization` decoder are parameters (`RemoteConfig.YamlLibrary`). YAML map keys are scalars only. A JSON object is a Dafny map, so the order of its keys is not kept.
- org.json coercions: `getInt` and `getLong` read only numbers. The model does not cover string-to-number coercion, Long overflow of the timestamp, or truncation of non-integral samples.
- `processDiscoveredServices` and `findWhiteboardSpecs` of the BLE manager are not modelled. They walk discovered services and call back into the service.
- `disconnect`, `setPreferredPhy`, `requestConnectionPriority` and the RSSI polling of the BLE manager are not modelled, because they are GATT calls with no bookkeeping of their own.
- The BLE manager's `getRemoteDevice` exceptions are not modelled. An address is taken to be well formed.
- In `processCharacteristicQueue`, the branch that finds no GATT connection is modelled. Under the manager's invariant, queues exist only for connected addresses, so that branch never runs.
- `serializeToJson` and `deserializeFromJson` are placeholders in the source that return constants. The configuration cache therefore never loads a saved configuration, and the model follows that.
- The view model's connect and disconnect intents, and the service's `onStartCommand` intent dispatch, are not modelled. Each intent becomes a direct call of the operation it names.
- The auto-notify and auto-subscribe hooks in the service's `onCreate` are not modelled. They depend on app settings and on timers.
- `setCharacteristicNotification` is not modelled. It is a local GATT call, and only the CCCD writes it accompanies are queued.
- `getExperiments`, `getExperimentConfig`, `getLastUpdateTime` and `getRawYaml` of the remote configuration manager are not modelled. They are HTTP calls or plain preference reads.
- `DeviceConfiguration.Configuration`: the device map is a list of (name, device) pairs, so it can repeat a name, which a Kotlin map cannot. The success message of `downloadAndSaveConfig` counts distinct names (`DeviceConfiguration.DeviceKeys`), as `devices.size` does. An exact lookup on a repeated name finds the first pair; with distinct names, as a Kotlin map guarantees, the question does not arise.
- `BleDataParsers`: the decoders return Dafny records (`HeartRateRecord`, `BatteryUpdate`, `TemperatureRecord`, `CharacteristicData`), not a `Map<String, Any>`. A key the Kotlin decoder adds only in some cases is an `Option` field, present exactly when the key is.
- `BleManagement.BleManager.QueueDescriptorWrite` and `BleManagement.BleManager.OnDescriptorWrite`: descriptors are immutable values, queued by copy. In the source, enable and disable set `value` on the one descriptor object that `getDescriptor(CCCD)` returns and queue that same reference, and `onDescriptorWrite` reads the value when the callback fires. So an enable and then a disable, queued before the first is sent, both send DISABLE in the source; in the model the first still sends ENABLE. The same holds for the characteristic object `queueCharacteristicWrite` shares. The model does not capture that aliasing.
- `BleManagement.BleManager.ProcessDescriptorQueue` and `BleManagement.BleManager.ProcessCharacteristicQueue`: the Boolean result of `writeDescriptor`/`writeCharacteristic` is not modelled. The source ignores it too, so a refused write leaves the in-flight flag raised with no callback to clear it. In the model the flag is likewise raised until the callback is called, but no lemma singles out that stuck state.
- EMQX rules: the `metadata` key, always `{}`, is left out of `RulePayload`. `response.ok` is ignored, as in the script.
- EMQX input: the YAML is taken to have the expected shapes. Only missing keys (`KeyError`) are modelled. A file that cannot be opened or parsed (lines 77-85) ends the script before any request. That outcome is not modelled.
- UI, Hilt wiring, MQTT client, settings screens and fixtures are not part of this model.
