/** The characteristic entry the UI shows for a connected device
    (BleCharacteristicInfo.kt): a UUID (in practice the configured name), the
    GATT property bits and whether notifications are on. The property bits are
    those of the characteristic declaration, section 3.3.1.1 of Volume 3 Part G
    of the Bluetooth Core Specification. */
module BleCharacteristics {
  import opened Bytes

  const PROPERTY_READ: nat := 0x02
  const PROPERTY_WRITE: nat := 0x08
  const PROPERTY_NOTIFY: nat := 0x10
  const PROPERTY_INDICATE: nat := 0x20

  datatype BleCharacteristicInfo = BleCharacteristicInfo(uuid: string, properties: nat, isNotifying: bool)

  /** The data class's constructor, whose `isNotifying` defaults to false. */
  function NewInfo(uuid: string, properties: nat): (r: BleCharacteristicInfo)
    ensures r.uuid == uuid && r.properties == properties && !r.isNotifying
  {
    BleCharacteristicInfo(uuid, properties, false)
  }

  /** `canRead`: the Read property, bit 1. */
  function CanRead(c: BleCharacteristicInfo): (r: bool)
    ensures r <==> HasBit(c.properties, 1)
  {
    BitAndSingle(c.properties, 1);
    BitAnd(c.properties, PROPERTY_READ) != 0
  }

  /** `canWrite`: the Write property, bit 3. */
  function CanWrite(c: BleCharacteristicInfo): (r: bool)
    ensures r <==> HasBit(c.properties, 3)
  {
    BitAndSingle(c.properties, 3);
    BitAnd(c.properties, PROPERTY_WRITE) != 0
  }

  /** `canNotify`: Notify (bit 4) or Indicate (bit 5); an indicate-only
      characteristic counts. */
  function CanNotify(c: BleCharacteristicInfo): (r: bool)
    ensures r <==> HasBit(c.properties, 4) || HasBit(c.properties, 5)
  {
    assert PROPERTY_NOTIFY + PROPERTY_INDICATE == 3 * Pow2(4);
    BitAndPair(c.properties, 4);
    BitAnd(c.properties, PROPERTY_NOTIFY + PROPERTY_INDICATE) != 0
  }

  /** The three capabilities depend on the property bits only. */
  lemma CapabilitiesIgnoreNotifying(c: BleCharacteristicInfo, on: bool)
    ensures CanRead(c.(isNotifying := on)) == CanRead(c)
    ensures CanWrite(c.(isNotifying := on)) == CanWrite(c)
    ensures CanNotify(c.(isNotifying := on)) == CanNotify(c)
  {
  }
}
