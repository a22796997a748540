/** The bytes the configuration setters hand to `setRegisters`.  Each
    setter builds a small byte array: enumerated settings go as
    `[0x00, code]`, 16-bit quantities go through a little-endian `leFrame`
    whose two bytes are then sent in reverse order (high byte first), and
    the system time goes as a 12-byte TAI64N label. */
module Payloads {
  import opened Bytes
  import opened ScanTypes

  /** One `setRegisters(start, count, bytes)` call. */
  datatype WriteRequest = WriteRequest(start: nat, count: nat, payload: seq<Byte>)
  {
    /** The payload fills exactly the registers written, two bytes per
        register, and every register written is a 16-bit address. */
    predicate WellFormed()
    {
      1 <= count && |payload| == 2 * count && start + count <= 0x1_0000
    }

    /** The 16-bit value the first register receives. */
    function FirstRegister(): (v: nat)
      requires |payload| >= 2
      ensures v == (payload[0] as int) * 256 + payload[1]
    {
      BigEndianPair(payload[0], payload[1]);
      assert payload[..2] == [payload[0], payload[1]];
      BigEndian(payload[..2])
    }
  }

  /** The TAI64 label of second 0 of 1970 (libtai: 2^62). */
  const Tai64Epoch: nat := 0x4000_0000_0000_0000

  /** Seconds since 1970 that a TAI64N label carries in its first eight
      bytes (big-endian label minus 2^62). */
  function Tai64Seconds(tai: seq<Byte>): int
    requires |tai| >= 8
  {
    BigEndian(tai[..8]) - Tai64Epoch
  }

  /** `[0x00, code]`: an enumerated setting in one register. */
  function EnumPayload(code: Byte): (p: seq<Byte>)
    ensures |p| == 2 && BigEndian(p) == code && p[0] == 0
  {
    BigEndianPair(0x00, code);
    [0x00, code]
  }

  /** A 16-bit value through `leFrame`: `Int16[0] = v`, then
      `{Byte[1], Byte[0]}`. */
  function Uint16Payload(v: UInt16): (p: seq<Byte>)
    ensures |p| == 2
  {
    var fram := LeFrame(v, 2);
    [fram[1], fram[0]]
  }

  /** The reversed `leFrame` bytes are the big-endian encoding: the
      register receives `v`, high byte `v / 256` first. */
  lemma Uint16PayloadRoundTrip(v: UInt16)
    ensures BigEndian(Uint16Payload(v)) == v
    ensures Uint16Payload(v) == [v / 256, v % 256]
  {
    var fram := LeFrame(v, 2);
    assert Uint16Payload(v) == Reverse(fram);
    assert Pow256(2) == 0x1_0000;
    LeFrameRoundTrip(v, 2);
    BigEndianOfReverse(fram);
    assert fram[1..] == LeFrame(v / 256, 1);
  }

  // ---------------------------------------------------------------------
  // The setters
  // ---------------------------------------------------------------------

  /** `resetSettings`: 0x0001 to holding register 4. */
  function ResetSettings(): (w: WriteRequest)
    ensures w.WellFormed() && w.start == 4 && w.count == 1
    ensures w.FirstRegister() == 1
  {
    WriteRequest(4, 1, EnumPayload(0x01))
  }

  /** `setSlaveID`: the new address to holding register 0. */
  function SetSlaveID(newSlaveID: Byte): (w: WriteRequest)
    ensures w.WellFormed() && w.start == 0 && w.count == 1
    ensures w.FirstRegister() == newSlaveID && w.payload[0] == 0
  {
    WriteRequest(0, 1, EnumPayload(newSlaveID))
  }

  /** `setCommunicationMode`: holding register 1. */
  function SetCommunicationMode(mode: SpecCommMode): (w: WriteRequest)
    ensures w.WellFormed() && w.start == 1 && w.count == 1
    ensures w.FirstRegister() == mode.Code() && w.payload[0] == 0
  {
    WriteRequest(1, 1, EnumPayload(mode.Code()))
  }

  /** `setBaudRate`: holding register 2. */
  function SetBaudRate(baud: SpecBaudRate): (w: WriteRequest)
    ensures w.WellFormed() && w.start == 2 && w.count == 1
    ensures w.FirstRegister() == baud.Code() && w.payload[0] == 0
  {
    WriteRequest(2, 1, EnumPayload(baud.Code()))
  }

  /** `setParity`: holding register 3. */
  function SetParity(parity: SpecParity): (w: WriteRequest)
    ensures w.WellFormed() && w.start == 3 && w.count == 1
    ensures w.FirstRegister() == parity.Code() && w.payload[0] == 0
  {
    WriteRequest(3, 1, EnumPayload(parity.Code()))
  }

  /** `setCleaningMode`: holding register 12. */
  function SetCleaningMode(mode: CleaningMode): (w: WriteRequest)
    ensures w.WellFormed() && w.start == 12 && w.count == 1
    ensures w.FirstRegister() == mode.Code() && w.payload[0] == 0
  {
    WriteRequest(12, 1, EnumPayload(mode.Code()))
  }

  /** `setLoggingMode` (0 = on, 1 = off): holding register 23. */
  function SetLoggingMode(mode: Byte): (w: WriteRequest)
    ensures w.WellFormed() && w.start == 23 && w.count == 1
    ensures w.FirstRegister() == mode && w.payload[0] == 0
  {
    WriteRequest(23, 1, EnumPayload(mode))
  }

  /** A 16-bit setting written through `leFrame` to one register. */
  function Uint16Write(register: nat, v: UInt16): (w: WriteRequest)
    requires register < 0x1_0000
    ensures w.WellFormed() && w.start == register && w.count == 1
    ensures w.FirstRegister() == v
  {
    Uint16PayloadRoundTrip(v);
    assert Uint16Payload(v)[..2] == Uint16Payload(v);
    WriteRequest(register, 1, Uint16Payload(v))
  }

  /** `setCleaningInterval`: holding register 13. */
  function SetCleaningInterval(intervalSamples: UInt16): (w: WriteRequest)
    ensures w.WellFormed() && w.start == 13 && w.count == 1
    ensures w.FirstRegister() == intervalSamples
  {
    Uint16Write(13, intervalSamples)
  }

  /** `setCleaningDuration`: holding register 14. */
  function SetCleaningDuration(secDuration: UInt16): (w: WriteRequest)
    ensures w.WellFormed() && w.start == 14 && w.count == 1
    ensures w.FirstRegister() == secDuration
  {
    Uint16Write(14, secDuration)
  }

  /** `setCleaningWait`: holding register 15. */
  function SetCleaningWait(secDuration: UInt16): (w: WriteRequest)
    ensures w.WellFormed() && w.start == 15 && w.count == 1
    ensures w.FirstRegister() == secDuration
  {
    Uint16Write(15, secDuration)
  }

  /** `setMeasInterval`: holding register 22. */
  function SetMeasInterval(secBetween: UInt16): (w: WriteRequest)
    ensures w.WellFormed() && w.start == 22 && w.count == 1
    ensures w.FirstRegister() == secBetween
  {
    Uint16Write(22, secBetween)
  }

  /** `setLoggingInterval`: holding register 24. */
  function SetLoggingInterval(interval: UInt16): (w: WriteRequest)
    ensures w.WellFormed() && w.start == 24 && w.count == 1
    ensures w.FirstRegister() == interval
  {
    Uint16Write(24, interval)
  }

  /** `setScanPoint`: the twelve characters, unchanged, to holding
      registers 6 to 11. */
  function SetScanPoint(charScanPoint: seq<Byte>): (w: WriteRequest)
    requires |charScanPoint| == 12
    ensures w.WellFormed() && w.start == 6 && w.count == 6
    ensures w.payload == charScanPoint
  {
    var sp := seq(12, i requires 0 <= i < 12 => charScanPoint[i]);
    WriteRequest(6, 6, sp)
  }

  /** `setSystemTime`: a TAI64N label to holding registers 16 to 21, byte 0
      0x40, bytes 4 to 7 the `leFrame` bytes of the time in reverse order,
      every other byte zero. */
  function SetSystemTime(currentUnixTime: UInt32): (w: WriteRequest)
    ensures w.WellFormed() && w.start == 16 && w.count == 6
  {
    var fram := LeFrame(currentUnixTime, 4);
    WriteRequest(16, 6, [0x40, 0, 0, 0, fram[3], fram[2], fram[1], fram[0], 0, 0, 0, 0])
  }

  /** The label `setSystemTime` sends is the TAI64 label of the given
      second, `2^62 + seconds`, with a zero nanosecond field: reading it
      back gives the time, and bytes 4 to 7 are the time big-endian. */
  lemma SetSystemTimeLabel(t: UInt32)
    ensures SetSystemTime(t).payload[0] == 0x40
    ensures BigEndian(SetSystemTime(t).payload[4..8]) == t
    ensures BigEndian(SetSystemTime(t).payload[..8]) == Tai64Epoch + t
    ensures BigEndian(SetSystemTime(t).payload[8..]) == 0
    ensures Tai64Seconds(SetSystemTime(t).payload) == t
  {
    var p := SetSystemTime(t).payload;
    SetSystemTimeSeconds(t);
    assert p[..8] == [0x40, 0, 0, 0] + p[4..8];
    BigEndianAppend([0x40, 0, 0, 0], p[4..8]);
    LabelConstants();
    assert p[8..] == [0, 0, 0, 0];
  }

  /** Bytes 4 to 7 of the `setSystemTime` payload are the time, big-endian. */
  lemma SetSystemTimeSeconds(t: UInt32)
    ensures BigEndian(SetSystemTime(t).payload[4..8]) == t
  {
    var fram := LeFrame(t, 4);
    assert SetSystemTime(t).payload[4..8] == Reverse(fram);
    assert Pow256(4) == 0x1_0000_0000;
    LeFrameRoundTrip(t, 4);
    BigEndianOfReverse(fram);
  }

  /** The values of the constant halves of the label. */
  lemma LabelConstants()
    ensures BigEndian([0x40, 0, 0, 0]) == 0x4000_0000
    ensures BigEndian([0, 0, 0, 0]) == 0
  {
    assert [0x40, 0, 0, 0][..3] == [0x40, 0, 0];
    assert [0x40, 0, 0][..2] == [0x40, 0];
    assert [0x40, 0][..1] == [0x40];
    assert [0x40][..0] == [];
    assert [0, 0, 0, 0][..3] == [0, 0, 0];
    assert [0, 0, 0][..2] == [0, 0];
    assert [0, 0][..1] == [0];
    assert [0][..0] == [];
  }
}
