/** The decoders of BleDataParsers.kt: raw characteristic values to keyed
    records. The heart-rate decoder follows the Heart Rate Measurement
    characteristic of section 3.1 of the Bluetooth SIG Heart Rate Service
    specification (HRS v1.0). */
module BleDataParsers {
  import opened Wrappers
  import opened Bytes

  // ---------------------------------------------------------------------------
  // Heart Rate Measurement

  const HR_FORMAT_16_BIT: nat := 0x01
  const SENSOR_CONTACT_DETECTED: nat := 0x02
  const SENSOR_CONTACT_SUPPORTED: nat := 0x04
  const ENERGY_EXPENDED_PRESENT: nat := 0x08
  const RR_INTERVAL_PRESENT: nat := 0x10

  /** The offset just past the heart-rate field: a 16-bit value that does not
      fit is not consumed. */
  function HeartRateEnd(data: seq<byte>): (r: nat)
    requires |data| >= 2
    ensures r <= |data|
  {
    if HasBit(data[0], 0) then (if |data| >= 3 then 3 else 1) else 2
  }

  /** The heart rate: byte 1, or the word at bytes 1-2 in the 16-bit format,
      or 0 when that word is cut short. */
  function HeartRateValue(data: seq<byte>): (r: nat)
    requires |data| >= 2
    ensures r < 0x1_0000
  {
    if !HasBit(data[0], 0) then data[1]
    else if |data| >= 3 then LE16(data[1], data[2])
    else 0
  }

  /** The energy field is decoded when its flag is set and two bytes follow the heart rate. */
  predicate EnergyDecoded(data: seq<byte>)
    requires |data| >= 2
  {
    HasBit(data[0], 3) && HeartRateEnd(data) + 2 <= |data|
  }

  function EnergyValue(data: seq<byte>): (r: nat)
    requires |data| >= 2 && EnergyDecoded(data)
    ensures r < 0x1_0000
  {
    LE16(data[HeartRateEnd(data)], data[HeartRateEnd(data) + 1])
  }

  /** Where the RR-interval words begin. */
  function RRStart(data: seq<byte>): (r: nat)
    requires |data| >= 2
    ensures r <= |data|
  {
    HeartRateEnd(data) + (if EnergyDecoded(data) then 2 else 0)
  }

  /** The consecutive little-endian words from `off` while two bytes remain. */
  function RRWords(data: seq<byte>, off: nat): (r: seq<nat>)
    requires off <= |data|
    ensures forall i :: 0 <= i < |r| ==> r[i] < 0x1_0000
    decreases |data| - off
  {
    if off + 1 < |data| then [LE16(data[off], data[off + 1])] + RRWords(data, off + 2) else []
  }

  /** The RR intervals the decoder reports (none when the flag is clear). */
  function RRIntervals(data: seq<byte>): seq<nat>
    requires |data| >= 2
  {
    if HasBit(data[0], 4) then RRWords(data, RRStart(data)) else []
  }

  /** The decoder's result map as a record, one field per key; the keys the
      decoder adds only sometimes are the `Option` fields. */
  datatype HeartRateRecord = HeartRateRecord(
    heartRate: nat,
    hrFormat16Bit: bool,
    sensorContactSupported: bool,
    sensorContactDetected: bool,
    energyExpendedPresent: bool,
    rrIntervalPresent: bool,
    flags: byte,
    energyExpended: Option<nat>,
    rrIntervals: Option<seq<nat>>)

  /** `parseHeartRateMeasurement` read off the layout: null below two bytes,
      otherwise each field at the offset the flags give. */
  function HeartRateSpec(data: seq<byte>): Option<HeartRateRecord> {
    if |data| < 2 then None
    else
      var rr := RRIntervals(data);
      Some(HeartRateRecord(
        HeartRateValue(data),
        HasBit(data[0], 0), HasBit(data[0], 2), HasBit(data[0], 1), HasBit(data[0], 3), HasBit(data[0], 4),
        data[0],
        if EnergyDecoded(data) then Some(EnergyValue(data)) else None,
        if rr != [] then Some(rr) else None))
  }

  /** What a decoded record says about its input: the flags byte and each of
      its bits, a 16-bit heart rate, the energy field exactly when its flag is
      set and two bytes follow the heart rate, and the RR list exactly when its
      flag is set and a whole word follows, one interval per whole word. */
  predicate HeartRateFacts(data: seq<byte>, h: HeartRateRecord)
    requires |data| >= 2
  {
    && h.flags == data[0]
    && h.hrFormat16Bit == HasBit(data[0], 0)
    && h.sensorContactDetected == HasBit(data[0], 1)
    && h.sensorContactSupported == HasBit(data[0], 2)
    && h.energyExpendedPresent == HasBit(data[0], 3)
    && h.rrIntervalPresent == HasBit(data[0], 4)
    && h.heartRate < 0x1_0000
    && (!h.hrFormat16Bit ==> h.heartRate == data[1])
    && (h.energyExpended.Some? <==> HasBit(data[0], 3) && HeartRateEnd(data) + 2 <= |data|)
    && (h.rrIntervals.Some? <==> HasBit(data[0], 4) && RRStart(data) + 1 < |data|)
    && (h.rrIntervals.Some? ==> |h.rrIntervals.value| == (|data| - RRStart(data)) / 2)
  }

  lemma HeartRateSpecFacts(data: seq<byte>)
    requires |data| >= 2
    ensures HeartRateSpec(data).Some? && HeartRateFacts(data, HeartRateSpec(data).value)
  {
    RRWordCount(data, RRStart(data));
  }

  /** `parseHeartRateMeasurement`, advancing an offset through the value. */
  method ParseHeartRateMeasurement(data: seq<byte>) returns (r: Option<HeartRateRecord>)
    ensures r == HeartRateSpec(data)
    ensures r.None? <==> |data| < 2
  {
    if |data| < 2 {
      return None;
    }
    var flags := data[0];
    BitAndSingle(flags, 0);
    BitAndSingle(flags, 1);
    BitAndSingle(flags, 2);
    BitAndSingle(flags, 3);
    BitAndSingle(flags, 4);
    var hrFormat16Bit := BitAnd(flags, HR_FORMAT_16_BIT) != 0;
    var sensorContactSupported := BitAnd(flags, SENSOR_CONTACT_SUPPORTED) != 0;
    var sensorContactDetected := BitAnd(flags, SENSOR_CONTACT_DETECTED) != 0;
    var energyExpendedPresent := BitAnd(flags, ENERGY_EXPENDED_PRESENT) != 0;
    var rrIntervalPresent := BitAnd(flags, RR_INTERVAL_PRESENT) != 0;

    var offset := 1;
    var heartRate: nat;
    if hrFormat16Bit {
      if |data| >= offset + 2 {
        heartRate := WordOr(data[offset], data[offset + 1]);
        offset := offset + 2;
      } else {
        heartRate := 0;
      }
    } else {
      heartRate := data[offset];
      offset := offset + 1;
    }
    assert offset == HeartRateEnd(data) && heartRate == HeartRateValue(data);

    var energyExpended: Option<nat> := None;
    if energyExpendedPresent && |data| >= offset + 2 {
      energyExpended := Some(WordOr(data[offset], data[offset + 1]));
      offset := offset + 2;
    }
    assert offset == RRStart(data);

    var rrIntervals: seq<nat> := [];
    if rrIntervalPresent {
      rrIntervals, offset := ReadRRIntervals(data, offset);
    }
    assert rrIntervals == RRIntervals(data);

    assert hrFormat16Bit == HasBit(data[0], 0) && sensorContactDetected == HasBit(data[0], 1);
    assert sensorContactSupported == HasBit(data[0], 2) && energyExpendedPresent == HasBit(data[0], 3);
    assert rrIntervalPresent == HasBit(data[0], 4);
    assert energyExpended == if EnergyDecoded(data) then Some(EnergyValue(data)) else None;
    HeartRateSpecFacts(data);
    return Some(HeartRateRecord(
      heartRate, hrFormat16Bit, sensorContactSupported, sensorContactDetected,
      energyExpendedPresent, rrIntervalPresent, flags,
      energyExpended, if rrIntervals != [] then Some(rrIntervals) else None));
  }

  /** The RR loop: words from `start` while two bytes remain, and the offset after them. */
  method ReadRRIntervals(data: seq<byte>, start: nat) returns (rr: seq<nat>, offset: nat)
    requires start <= |data|
    ensures rr == RRWords(data, start)
    ensures start <= offset <= |data| && offset + 1 >= |data|
  {
    rr := [];
    offset := start;
    while offset + 1 < |data|
      invariant start <= offset <= |data|
      invariant rr + RRWords(data, offset) == RRWords(data, start)
      decreases |data| - offset
    {
      rr := rr + [WordOr(data[offset], data[offset + 1])];
      offset := offset + 2;
    }
  }

  /** Every word read starts two bytes after the previous one: the count is
      the number of whole words left. */
  lemma {:induction false} RRWordCount(data: seq<byte>, off: nat)
    requires off <= |data|
    ensures |RRWords(data, off)| == (|data| - off) / 2
    decreases |data| - off
  {
    if off + 1 < |data| {
      RRWordCount(data, off + 2);
    }
  }

  /** The i-th RR interval is the word at `off + 2i`. */
  lemma {:induction false} RRWordAt(data: seq<byte>, off: nat, i: nat)
    requires off <= |data| && i < |RRWords(data, off)|
    ensures off + 2 * i + 1 < |data|
    ensures RRWords(data, off)[i] == LE16(data[off + 2 * i], data[off + 2 * i + 1])
    decreases i
  {
    if i > 0 {
      RRWordAt(data, off + 2, i - 1);
    }
  }

  /** A heart-rate measurement as a sensor sends it. */
  datatype HeartRateMeasurement = HeartRateMeasurement(
    heartRate: nat,
    format16Bit: bool,
    contactDetected: bool,
    contactSupported: bool,
    energyExpended: Option<nat>,
    rrIntervals: seq<nat>)

  predicate Encodable(m: HeartRateMeasurement) {
    && (if m.format16Bit then m.heartRate < 0x1_0000 else m.heartRate < 0x100)
    && (m.energyExpended.Some? ==> m.energyExpended.value < 0x1_0000)
    && (forall i :: 0 <= i < |m.rrIntervals| ==> m.rrIntervals[i] < 0x1_0000)
  }

  function Bit(b: bool, mask: nat): nat {
    if b then mask else 0
  }

  /** The flags byte of an encoded measurement; bit 4 is set when RR intervals follow. */
  function FlagsOf(m: HeartRateMeasurement): (r: byte) {
    Bit(m.format16Bit, HR_FORMAT_16_BIT) + Bit(m.contactDetected, SENSOR_CONTACT_DETECTED)
    + Bit(m.contactSupported, SENSOR_CONTACT_SUPPORTED) + Bit(m.energyExpended.Some?, ENERGY_EXPENDED_PRESENT)
    + Bit(m.rrIntervals != [], RR_INTERVAL_PRESENT)
  }

  /** A 16-bit word least significant byte first (the firmware's `STORE_LE_16`). */
  function EncodeWord(w: nat): (r: seq<byte>)
    requires w < 0x1_0000
    ensures |r| == 2 && LE16(r[0], r[1]) == w
  {
    [w % 256, w / 256]
  }

  function EncodeWords(ws: seq<nat>): (r: seq<byte>)
    requires forall i :: 0 <= i < |ws| ==> ws[i] < 0x1_0000
    ensures |r| == 2 * |ws|
  {
    if ws == [] then [] else EncodeWord(ws[0]) + EncodeWords(ws[1..])
  }

  /** The value a sensor writes for `m`, laid out as in section 3.1 of HRS v1.0. */
  function EncodeHeartRate(m: HeartRateMeasurement): (r: seq<byte>)
    requires Encodable(m)
  {
    [FlagsOf(m)]
    + (if m.format16Bit then [m.heartRate % 256, m.heartRate / 256] else [m.heartRate])
    + (match m.energyExpended case Some(e) => [e % 256, e / 256] case None => [])
    + EncodeWords(m.rrIntervals)
  }

  lemma FlagBits(m: HeartRateMeasurement)
    ensures HasBit(FlagsOf(m), 0) == m.format16Bit
    ensures HasBit(FlagsOf(m), 1) == m.contactDetected
    ensures HasBit(FlagsOf(m), 2) == m.contactSupported
    ensures HasBit(FlagsOf(m), 3) == m.energyExpended.Some?
    ensures HasBit(FlagsOf(m), 4) == (m.rrIntervals != [])
  {
    var f: nat := FlagsOf(m);
    assert HasBit(f, 1) == HasBit(f / 2, 0);
    assert HasBit(f, 2) == HasBit(f / 4, 0) by {
      assert HasBit(f, 2) == HasBit(f / 2, 1) == HasBit(f / 2 / 2, 0);
    }
    assert HasBit(f, 3) == HasBit(f / 8, 0) by {
      assert HasBit(f, 3) == HasBit(f / 2, 2) == HasBit(f / 2 / 2, 1) == HasBit(f / 2 / 2 / 2, 0);
    }
    assert HasBit(f, 4) == HasBit(f / 16, 0) by {
      assert HasBit(f, 4) == HasBit(f / 2, 3) == HasBit(f / 2 / 2, 2) == HasBit(f / 2 / 2 / 2, 1)
        == HasBit(f / 2 / 2 / 2 / 2, 0);
    }
  }

  lemma {:induction false} DecodeWords(prefix: seq<byte>, ws: seq<nat>)
    requires forall i :: 0 <= i < |ws| ==> ws[i] < 0x1_0000
    ensures RRWords(prefix + EncodeWords(ws), |prefix|) == ws
    decreases |ws|
  {
    if ws != [] {
      var data := prefix + EncodeWords(ws);
      var prefix' := prefix + EncodeWord(ws[0]);
      assert data == prefix' + EncodeWords(ws[1..]);
      DecodeWords(prefix', ws[1..]);
    }
  }

  /** Decoding what a sensor encoded gives back the measurement: the heart
      rate in either format, the contact bits, the energy when sent and the
      RR intervals when sent. */
  lemma HeartRateRoundTrip(m: HeartRateMeasurement)
    requires Encodable(m)
    ensures HeartRateSpec(EncodeHeartRate(m)) == Some(HeartRateRecord(
      m.heartRate, m.format16Bit, m.contactSupported, m.contactDetected,
      m.energyExpended.Some?, m.rrIntervals != [], FlagsOf(m),
      m.energyExpended, if m.rrIntervals != [] then Some(m.rrIntervals) else None))
  {
    var data := EncodeHeartRate(m);
    FlagBits(m);
    var hr: seq<byte> := if m.format16Bit then [m.heartRate % 256, m.heartRate / 256] else [m.heartRate];
    var energy: seq<byte> := match m.energyExpended case Some(e) => [e % 256, e / 256] case None => [];
    var head := [FlagsOf(m)] + hr + energy;
    assert data == head + EncodeWords(m.rrIntervals);
    assert data[0] == FlagsOf(m);
    assert HeartRateEnd(data) == 1 + |hr|;
    assert HeartRateValue(data) == m.heartRate;
    assert EnergyDecoded(data) == m.energyExpended.Some?;
    if m.energyExpended.Some? {
      assert data[1 + |hr|] == energy[0] && data[2 + |hr|] == energy[1];
    }
    assert RRStart(data) == |head|;
    DecodeWords(head, m.rrIntervals);
  }

  // ---------------------------------------------------------------------------
  // ST battery structure

  /** The battery update of the ST firmware and of the decoded record: a tick
      count in tens of milliseconds, the level in tenths of a percent (the
      record's `batteryLevel` is this over 10.0), millivolts, milliamps and a
      status byte. */
  datatype BatteryUpdate = BatteryUpdate(timestamp: nat, batteryLevelRaw: nat, voltage: nat, current: nat, status: byte)

  predicate BatteryUpdateFits(u: BatteryUpdate) {
    u.timestamp < 0x1_0000 && u.batteryLevelRaw < 0x1_0000 && u.voltage < 0x1_0000 && u.current < 0x1_0000
  }

  /** `parseSTBatteryStruct`: four little-endian words and a status byte. */
  function ParseSTBatteryStruct(data: seq<byte>): (r: Option<BatteryUpdate>)
    ensures r.None? <==> |data| < 9
    ensures r.Some? ==> BatteryUpdateFits(r.value) && r.value.status == data[8]
  {
    if |data| < 9 then None
    else
      var timestamp := WordOr(data[0], data[1]);
      var batteryLevelRaw := WordOr(data[2], data[3]);
      var voltage := WordOr(data[4], data[5]);
      var current := WordOr(data[6], data[7]);
      var status := data[8];
      Some(BatteryUpdate(timestamp, batteryLevelRaw, voltage, current, status))
  }

  /** The firmware's `STORE_LE_16` of each word, then the status byte. */
  function EncodeBatteryUpdate(u: BatteryUpdate): (r: seq<byte>)
    requires BatteryUpdateFits(u)
    ensures |r| == 9
  {
    EncodeWord(u.timestamp) + EncodeWord(u.batteryLevelRaw) + EncodeWord(u.voltage) + EncodeWord(u.current) + [u.status]
  }

  /** The decoder reads back what the firmware wrote. */
  lemma STBatteryRoundTrip(u: BatteryUpdate)
    requires BatteryUpdateFits(u)
    ensures ParseSTBatteryStruct(EncodeBatteryUpdate(u)) == Some(u)
  {
    var data := EncodeBatteryUpdate(u);
    assert data[..2] == EncodeWord(u.timestamp) && data[2..4] == EncodeWord(u.batteryLevelRaw);
    assert data[4..6] == EncodeWord(u.voltage) && data[6..8] == EncodeWord(u.current) && data[8] == u.status;
  }

  /** Every nine bytes are some firmware update: encoding the decoded update gives them back. */
  lemma STBatteryEncodeParse(data: seq<byte>)
    requires |data| == 9
    ensures ParseSTBatteryStruct(data).Some?
    ensures EncodeBatteryUpdate(ParseSTBatteryStruct(data).value) == data
  {
    var u := ParseSTBatteryStruct(data).value;
    var e := EncodeBatteryUpdate(u);
    assert e[..2] == EncodeWord(u.timestamp) && e[2..4] == EncodeWord(u.batteryLevelRaw);
    assert e[4..6] == EncodeWord(u.voltage) && e[6..8] == EncodeWord(u.current) && e[8] == u.status;
  }

  // ---------------------------------------------------------------------------
  // Battery level

  /** `parseBatteryLevel`: the record's one value, byte 0 read as a signed Kotlin `Byte`. */
  function ParseBatteryLevel(data: seq<byte>): (r: Option<int>)
    ensures r.None? <==> data == []
    ensures r.Some? ==> -128 <= r.value < 128 && (r.value - data[0]) % 256 == 0
  {
    if |data| < 1 then None
    else Some(SignedByte(data[0]))
  }

  /** A level sent as a signed byte is read back as itself; bytes after the first are ignored. */
  lemma BatteryLevelRoundTrip(level: int, rest: seq<byte>)
    requires -128 <= level < 128
    ensures ParseBatteryLevel([level % 256] + rest) == Some(level)
  {
  }

  // ---------------------------------------------------------------------------
  // Custom temperature

  /** The fold of the bytes from index 6 on, as a Kotlin `Int`. */
  function TemperatureRaw(data: seq<byte>): (r: int)
    requires |data| >= 6
    ensures -0x8000_0000 <= r < 0x8000_0000
    ensures |data| == 6 ==> r == 0
    ensures |data| <= 10 ==> LittleValue(data[6..]) < 0x1_0000_0000 && r == Int32(LittleValue(data[6..]))
  {
    assert |data| <= 10 ==> FoldOrShl(data[6..]) == LittleValue(data[6..]) by {
      if |data| <= 10 {
        FoldIsLittleValue(data[6..]);
      }
    }
    Int32(FoldOrShl(data[6..]))
  }

  /** The decoded record: `temperature` is the `Double` of the whole number held here. */
  datatype TemperatureRecord = TemperatureRecord(temperature: int, rawValue: int)

  /** `parseCustomTemperature`: the raw value and the raw value with its last
      decimal digit dropped by Kotlin's truncating integer division. */
  function ParseCustomTemperature(data: seq<byte>): (r: Option<TemperatureRecord>)
    ensures r.None? <==> |data| < 6
    ensures r.Some? ==> r.value.rawValue == TemperatureRaw(data)
    ensures r.Some? ==>
      var raw := r.value.rawValue;
      var t := r.value.temperature;
      && (raw >= 0 ==> 0 <= raw - 10 * t < 10)
      && (raw < 0 ==> -10 < raw - 10 * t <= 0)
  {
    if |data| < 6 then None
    else
      var tempValue := TemperatureRaw(data);
      Some(TemperatureRecord(TruncDiv(tempValue, 10), tempValue))
  }

  // ---------------------------------------------------------------------------
  // Four-byte integer

  /** `parse4ByteInteger`: the fold of bytes 0..3. */
  function Parse4ByteInteger(data: seq<byte>): (r: Option<int>)
    ensures r.None? <==> |data| < 4
    ensures r.Some? ==> r.value == Int32(LittleValue(data[..4]))
    ensures r.Some? ==> -0x8000_0000 <= r.value < 0x8000_0000
  {
    if |data| < 4 then None
    else
      FoldIsLittleValue(data[..4]);
      Some(Int32(FoldOrShl(data[..4])))
  }

  /** Bytes past index 3 play no part. */
  lemma Parse4ByteIntegerIgnoresTail(data: seq<byte>, tail: seq<byte>)
    requires |data| >= 4
    ensures Parse4ByteInteger(data + tail) == Parse4ByteInteger(data)
  {
    assert (data + tail)[..4] == data[..4];
  }

  /** An `Int` sent as four little-endian two's-complement bytes is read back as itself. */
  lemma Parse4ByteIntegerRoundTrip(v: int, tail: seq<byte>)
    requires -0x8000_0000 <= v < 0x8000_0000
    ensures Parse4ByteInteger(EncodeLittle(v % 0x1_0000_0000, 4) + tail) == Some(v)
  {
    var u := v % 0x1_0000_0000;
    Pow256Of4();
    var bs := EncodeLittle(u, 4);
    assert (bs + tail)[..4] == bs;
    LittleRoundTrip(u, 4);
    Int32OfResidue(v);
  }
}
