/** The `scan` driver object: the slave address it was begun with and the
    Modbus master it reads through, with the operations that do more than
    one register read (the spectral fetchers and the search for the global
    calibration name), and the status printers of the driver's own source
    file, whose parameter table differs from the bitmask header's. */
module ScanModbus {
  import opened Bytes
  import opened ScanTypes
  import opened Modbus
  import opened RegisterMap
  import opened Payloads
  import opened ParseTables
  import opened StatusBitmasks
  import opened SpectralFetch

  /** Highest offset past the private configuration pointer that
      `getCurrentGlobalCal` probes (`i < 256`). */
  const LastProbe: nat := 255

  /** The read of the private configuration pointer (holding register 5),
      which `getCurrentGlobalCal` issues twice: once for the address and
      once for the register type. */
  const PointerRead: Request := Request(ReadHoldingRegisters, 5, 1)

  lemma PointerReadIsPrivateConfig()
    ensures PointerRead == DeviceRead(PrivateConfig).Request()
  {
  }

  /** Characters of the global calibration name. */
  const CalNameChars: nat := 12

  /** The value of the register `offset` past `regNum`, as one
      `uint16FromRegister(fc, regNum + offset)` reads it. */
  function ProbeValue(m: ModbusMaster, fc: Byte, regNum: int, offset: nat): UInt16
  {
    m.Uint16At(fc, regNum + offset)
  }

  /** Offset of the register `getCurrentGlobalCal` reads the name at: the
      first of `regNum + from .. regNum + 255` whose value is non-zero, or
      255 when none before it is. */
  function NameOffset(m: ModbusMaster, fc: Byte, regNum: int, from: nat): (k: nat)
    requires from <= LastProbe
    ensures from <= k <= LastProbe
    ensures forall j: nat :: from <= j < k ==> ProbeValue(m, fc, regNum, j) == 0
    ensures k < LastProbe ==> ProbeValue(m, fc, regNum, k) != 0
    decreases LastProbe - from
  {
    if from == LastProbe || ProbeValue(m, fc, regNum, from) != 0 then from
    else NameOffset(m, fc, regNum, from + 1)
  }

  /** The name register of the private configuration: the pointer's
      address and read code, and the offset of the first non-zero
      register. */
  function NameRegister(m: ModbusMaster): (r: (Byte, int))
  {
    var pointerFrame := m.respond(ReadHoldingRegisters, 5, 1);
    var regNum := m.pointer(pointerFrame, HeaderBytes);
    var regType := RegisterTypeReadCode(m.pointerType(pointerFrame, HeaderBytes));
    (regType, regNum + NameOffset(m, regType, regNum, 0))
  }

  /** The name `getCurrentGlobalCal` returns: 12 characters read with the
      pointer's read code at the first non-zero register from the pointer
      on (or the 256th register when all are zero). */
  function GlobalCalName(m: ModbusMaster): string
  {
    var (regType, reg) := NameRegister(m);
    m.text(m.respond(regType, reg, CalNameChars / 2), CalNameChars, HeaderBytes)
  }

  /** The reads `getCurrentGlobalCal` issues: the pointer twice, one
      single-register probe per offset up to the name's, and the name. */
  function GlobalCalReads(m: ModbusMaster): seq<Request>
  {
    var pointerFrame := m.respond(ReadHoldingRegisters, 5, 1);
    var regNum := m.pointer(pointerFrame, HeaderBytes);
    var regType := RegisterTypeReadCode(m.pointerType(pointerFrame, HeaderBytes));
    var k := NameOffset(m, regType, regNum, 0);
    [PointerRead, PointerRead] + Probes(regType, regNum, k + 1) + [Request(regType, regNum + k, CalNameChars / 2)]
  }

  /** The single-register probes of offsets `0 .. n - 1`. */
  function Probes(fc: Byte, regNum: int, n: nat): seq<Request>
  {
    seq(n, j requires 0 <= j < n => Request(fc, regNum + j, 1))
  }

  class Scan {
    const modbus: ModbusMaster
    /** `_slaveID` */
    var slaveID: Byte

    /** `begin(modbusSlaveID, ...)`: remembers the slave address. */
    constructor Begin(modbus: ModbusMaster, modbusSlaveID: Byte)
      ensures this.modbus == modbus && slaveID == modbusSlaveID
    {
      this.modbus := modbus;
      slaveID := modbusSlaveID;
    }

    /** `getSlaveID` */
    function GetSlaveID(): Byte
      reads this
    {
      slaveID
    }

    /** `getSystemStatus`: no register is known for it. */
    function GetSystemStatus(): (status: int)
      ensures status == 0
    {
      0
    }

    /** `getParameterCount`: the number of parameters the probe records,
        input register 22. */
    method GetParameterCount() returns (n: int)
      modifies modbus
      ensures n == modbus.Uint16At(ReadInputRegisters, DeviceRead(ParameterCount).start)
      ensures modbus.log == old(modbus.log) + [DeviceRead(ParameterCount).Request()]
      ensures modbus.writes == old(modbus.writes)
    {
      n := modbus.Uint16FromRegister(ReadInputRegisters, 22);
    }

    /** `getParameterValue(parmNumber)`: the float of parameter
        `parmNumber`, as its 32-bit pattern. */
    method GetParameterValue(parmNumber: int) returns (v: UInt32)
      modifies modbus
      ensures v == modbus.float32(modbus.respond(ReadInputRegisters, ParameterValueRead(parmNumber).start, 2), HeaderBytes)
      ensures modbus.log == old(modbus.log) + [ParameterValueRead(parmNumber).Request()]
      ensures modbus.writes == old(modbus.writes)
    {
      v := modbus.Float32FromRegister(ReadInputRegisters, 120 + 8 * parmNumber + 2);
    }

    /** `setSlaveID`: writes the new address to holding register 0 and
        returns the acknowledgement; the address the driver addresses its
        requests to stays the one it was begun with. */
    method SetSlaveID(newSlaveID: Byte) returns (ok: bool)
      modifies modbus
      ensures modbus.writes == old(modbus.writes) + [Payloads.SetSlaveID(newSlaveID)]
      ensures modbus.log == old(modbus.log)
      ensures ok == modbus.acknowledge(Payloads.SetSlaveID(newSlaveID))
      ensures GetSlaveID() == old(GetSlaveID())
    {
      ok := modbus.SetRegisters(Payloads.SetSlaveID(newSlaveID));
    }

    /** One request and its loop: `getRegisters(0x04, startingReg +
        offset, count)`, then `a[dest + i] = float32FromFrame(bigEndian,
        i*2 + 3)` for `i` below `floats`. */
    method FetchBatch(a: array<UInt32>, startingReg: int, b: Batch)
      requires b.dest + b.floats <= a.Length
      modifies modbus, a
      ensures modbus.frame == BatchFrame(modbus.respond, startingReg, b)
      ensures modbus.log == old(modbus.log) + [Request(ReadInputRegisters, startingReg + b.offset, b.count)]
      ensures modbus.writes == old(modbus.writes)
      ensures a[..] == Store(old(a[..]), b, modbus.frame, modbus.float32)
    {
      modbus.GetRegisters(ReadInputRegisters, startingReg + b.offset, b.count);
      for i := 0 to b.floats
        modifies a
        invariant forall j :: 0 <= j < a.Length ==>
          a[j] == if b.dest <= j < b.dest + i then modbus.float32(modbus.frame, DecodeIndex(j - b.dest)) else old(a[j])
      {
        a[b.dest + i] := modbus.Float32FromFrame(DecodeIndex(i));
      }
      assert a[..] == Store(old(a[..]), b, modbus.frame, modbus.float32);
    }

    /** `getFingerprintData(fpArray, source)`: the four batches of
        `FingerprintPlan` from the source's data register, then the
        status word one register below it. */
    method GetFingerprintData(fpArray: array<UInt32>, source: SpectralSource) returns (status: UInt16)
      requires fpArray.Length >= 221
      modifies modbus, fpArray
      ensures var start := FingerprintRead(source, FpData).start;
        modbus.log == old(modbus.log) + Requests(start, FingerprintPlan()) + [Request(ReadInputRegisters, start - 1, 1)]
      ensures modbus.writes == old(modbus.writes)
      ensures fpArray[..] == Fill(old(fpArray[..]), FingerprintPlan(), modbus.respond,
                                  FingerprintRead(source, FpData).start, modbus.float32)
      ensures forall j :: 0 <= j < 221 ==>
        fpArray[j] == modbus.float32(BatchFrame(modbus.respond, FingerprintRead(source, FpData).start,
                                                FingerprintPlan()[j / 62]), DecodeIndex(j % 62))
      ensures forall j :: 221 <= j < fpArray.Length ==> fpArray[j] == old(fpArray[j])
      ensures status == modbus.Uint16At(ReadInputRegisters, FingerprintRead(source, FpStatus).start)
    {
      var startingReg := 522 + 512 * source.Code();
      assert startingReg == FingerprintRead(source, FpData).start;
      assert startingReg - 1 == FingerprintRead(source, FpStatus).start;
      var p := FingerprintPlan();
      ghost var a0, log0 := fpArray[..], modbus.log;
      FetchBatch(fpArray, startingReg, p[0]);
      ghost var f0, a1, log1 := modbus.frame, fpArray[..], modbus.log;
      FetchBatch(fpArray, startingReg, p[1]);
      ghost var f1, a2, log2 := modbus.frame, fpArray[..], modbus.log;
      FetchBatch(fpArray, startingReg, p[2]);
      ghost var f2, a3, log3 := modbus.frame, fpArray[..], modbus.log;
      FetchBatch(fpArray, startingReg, p[3]);
      FetchedFour(p, modbus.respond, startingReg, modbus.float32, a0, a1, a2, a3, fpArray[..],
                  f0, f1, f2, modbus.frame, log0, log1, log2, log3, modbus.log);
      FingerprintFill(a0, modbus.respond, startingReg, modbus.float32);
      status := modbus.Uint16FromRegister(ReadInputRegisters, startingReg - 1);
    }

    /** `getReferenceValues(refArray, refNumber)`: the five batches of
        `ReferencePlan` from the reference's value register, then whether
        the word one register below it is non-zero. */
    method GetReferenceValues(refArray: array<UInt32>, refNumber: int) returns (ok: bool)
      requires refArray.Length >= 221
      modifies modbus, refArray
      ensures var start := ReferenceValuesRead(refNumber).start;
        modbus.log == old(modbus.log) + Requests(start, ReferencePlan()) + [Request(ReadInputRegisters, start - 1, 1)]
      ensures modbus.writes == old(modbus.writes)
      ensures refArray[..] == Fill(old(refArray[..]), ReferencePlan(), modbus.respond,
                                   ReferenceValuesRead(refNumber).start, modbus.float32)
      ensures forall j :: 0 <= j < 186 ==>
        refArray[j] == modbus.float32(BatchFrame(modbus.respond, ReferenceValuesRead(refNumber).start,
                                                 ReferencePlan()[j / 62]), DecodeIndex(j % 62))
      ensures forall j :: 186 <= j < 221 ==>
        refArray[j] == modbus.float32(BatchFrame(modbus.respond, ReferenceValuesRead(refNumber).start,
                                                 ReferencePlan()[4]), DecodeIndex(j - 186))
      ensures forall j :: 221 <= j < refArray.Length ==> refArray[j] == old(refArray[j])
      ensures ok <==> modbus.Uint16At(ReadInputRegisters, ReferenceValuesRead(refNumber).start - 1) != 0
    {
      var startingReg := 1542 + 536 * refNumber;
      assert startingReg == ReferenceValuesRead(refNumber).start;
      var p := ReferencePlan();
      ghost var a0, log0 := refArray[..], modbus.log;
      FetchBatch(refArray, startingReg, p[0]);
      ghost var f0, a1, log1 := modbus.frame, refArray[..], modbus.log;
      FetchBatch(refArray, startingReg, p[1]);
      ghost var f1, a2, log2 := modbus.frame, refArray[..], modbus.log;
      FetchBatch(refArray, startingReg, p[2]);
      ghost var f2, a3, log3 := modbus.frame, refArray[..], modbus.log;
      FetchBatch(refArray, startingReg, p[3]);
      ghost var f3, a4, log4 := modbus.frame, refArray[..], modbus.log;
      FetchBatch(refArray, startingReg, p[4]);
      FetchedFive(p, modbus.respond, startingReg, modbus.float32, a0, a1, a2, a3, a4, refArray[..],
                  f0, f1, f2, f3, modbus.frame, log0, log1, log2, log3, log4, modbus.log);
      ReferenceFill(a0, modbus.respond, startingReg, modbus.float32);
      var v := modbus.Uint16FromRegister(ReadInputRegisters, startingReg - 1);
      ok := v != 0;
    }

    /** `getCurrentGlobalCal`: reads the private configuration pointer and
        its register type, finds the start of the name, and reads the
        12-character name there. */
    method GetCurrentGlobalCal() returns (name: string)
      modifies modbus
      ensures name == GlobalCalName(modbus)
      ensures modbus.log == old(modbus.log) + GlobalCalReads(modbus)
      ensures modbus.writes == old(modbus.writes)
    {
      ghost var log0 := modbus.log;
      var regType, regNum := ReadCalPointer();
      ghost var log1 := modbus.log;
      var actualReg := FindNameRegister(regType, regNum);
      ghost var log2 := modbus.log;
      name := modbus.StringFromRegister(regType, actualReg, CalNameChars);
      GlobalCalDone(modbus, log0, log1, log2, modbus.log, regType, regNum, actualReg, name);
    }

    /** The two reads of the private configuration pointer: the register
        it points at and the read code of its register type. */
    method ReadCalPointer() returns (regType: Byte, regNum: int)
      modifies modbus
      ensures regNum == modbus.pointer(modbus.respond(ReadHoldingRegisters, 5, 1), HeaderBytes)
      ensures regType == RegisterTypeReadCode(modbus.pointerType(modbus.respond(ReadHoldingRegisters, 5, 1), HeaderBytes))
      ensures modbus.log == old(modbus.log) + [PointerRead] + [PointerRead]
      ensures modbus.writes == old(modbus.writes)
    {
      regNum := modbus.PointerFromRegister(ReadHoldingRegisters, 5);
      var pointerType := modbus.PointerTypeFromRegister(ReadHoldingRegisters, 5);
      regType := RegisterTypeReadCode(pointerType);
    }

    /** The search loop of `getCurrentGlobalCal`: probes `regNum + i` for
        `i` from 0 until a non-zero value or `i = 255`, and returns the last
        register probed. */
    method FindNameRegister(regType: Byte, regNum: int) returns (actualReg: int)
      modifies modbus
      ensures actualReg == regNum + NameOffset(modbus, regType, regNum, 0)
      ensures modbus.log == old(modbus.log) + Probes(regType, regNum, NameOffset(modbus, regType, regNum, 0) + 1)
      ensures modbus.writes == old(modbus.writes)
    {
      actualReg := regNum;
      var i := 0;
      while i < 256
        invariant 0 <= i <= 256
        invariant forall j: nat :: j < i ==> ProbeValue(modbus, regType, regNum, j) == 0
        invariant modbus.log == old(modbus.log) + Probes(regType, regNum, i)
        invariant modbus.writes == old(modbus.writes)
        invariant i > 0 ==> actualReg == regNum + i - 1
      {
        actualReg := regNum + i;
        var testVal := modbus.Uint16FromRegister(regType, actualReg);
        ProbesSnoc(regType, regNum, i);
        if testVal != 0 {
          NameOffsetAt(modbus, regType, regNum, i);
          return;
        }
        i := i + 1;
      }
      NameOffsetAt(modbus, regType, regNum, LastProbe);
    }
  }

  /** The name and the reads of the steps of `getCurrentGlobalCal` are
      `GlobalCalName` and `GlobalCalReads`. */
  lemma GlobalCalDone(m: ModbusMaster, log0: seq<Request>, log1: seq<Request>, log2: seq<Request>, log3: seq<Request>,
                      regType: Byte, regNum: int, actualReg: int, name: string)
    requires regNum == m.pointer(m.respond(ReadHoldingRegisters, 5, 1), HeaderBytes)
    requires regType == RegisterTypeReadCode(m.pointerType(m.respond(ReadHoldingRegisters, 5, 1), HeaderBytes))
    requires log1 == log0 + [PointerRead] + [PointerRead]
    requires actualReg == regNum + NameOffset(m, regType, regNum, 0)
    requires log2 == log1 + Probes(regType, regNum, NameOffset(m, regType, regNum, 0) + 1)
    requires log3 == log2 + [Request(regType, actualReg, CalNameChars / 2)]
    requires name == m.text(m.respond(regType, actualReg, CalNameChars / 2), CalNameChars, HeaderBytes)
    ensures name == GlobalCalName(m)
    ensures log3 == log0 + GlobalCalReads(m)
  {
    GlobalCalSteps(m, log0, log1, log2, log3, regType, regNum, actualReg);
    GlobalCalNameAt(m, regType, regNum, actualReg, name);
  }

  /** The reads issued step by step are `GlobalCalReads`. */
  lemma GlobalCalSteps(m: ModbusMaster, log0: seq<Request>, log1: seq<Request>, log2: seq<Request>, log3: seq<Request>,
                       regType: Byte, regNum: int, actualReg: int)
    requires regNum == m.pointer(m.respond(ReadHoldingRegisters, 5, 1), HeaderBytes)
    requires regType == RegisterTypeReadCode(m.pointerType(m.respond(ReadHoldingRegisters, 5, 1), HeaderBytes))
    requires log1 == log0 + [PointerRead] + [PointerRead]
    requires actualReg == regNum + NameOffset(m, regType, regNum, 0)
    requires log2 == log1 + Probes(regType, regNum, NameOffset(m, regType, regNum, 0) + 1)
    requires log3 == log2 + [Request(regType, actualReg, CalNameChars / 2)]
    ensures log3 == log0 + GlobalCalReads(m)
  {
    var probes, nameRead := Probes(regType, regNum, NameOffset(m, regType, regNum, 0) + 1), [Request(regType, actualReg, CalNameChars / 2)];
    assert GlobalCalReads(m) == [PointerRead, PointerRead] + probes + nameRead;
    assert log1 == log0 + [PointerRead, PointerRead];
    ConcatAssoc(log0, [PointerRead, PointerRead], probes, nameRead);
  }

  /** The name read at the register the search settles on is `GlobalCalName`. */
  lemma GlobalCalNameAt(m: ModbusMaster, regType: Byte, regNum: int, actualReg: int, name: string)
    requires regNum == m.pointer(m.respond(ReadHoldingRegisters, 5, 1), HeaderBytes)
    requires regType == RegisterTypeReadCode(m.pointerType(m.respond(ReadHoldingRegisters, 5, 1), HeaderBytes))
    requires actualReg == regNum + NameOffset(m, regType, regNum, 0)
    requires name == m.text(m.respond(regType, actualReg, CalNameChars / 2), CalNameChars, HeaderBytes)
    ensures name == GlobalCalName(m)
  {
  }

  lemma ConcatAssoc<T>(a: seq<T>, b: seq<T>, c: seq<T>, d: seq<T>)
    ensures a + b + c + d == a + (b + c + d)
  {
  }

  lemma ProbesSnoc(fc: Byte, regNum: int, i: nat)
    ensures Probes(fc, regNum, i) + [Request(fc, regNum + i, 1)] == Probes(fc, regNum, i + 1)
  {
  }

  /** The name offset is the first non-zero probe, or the last probe. */
  lemma NameOffsetAt(m: ModbusMaster, fc: Byte, regNum: int, i: nat)
    requires i <= LastProbe
    requires forall j: nat :: j < i ==> ProbeValue(m, fc, regNum, j) == 0
    requires i == LastProbe || ProbeValue(m, fc, regNum, i) != 0
    ensures NameOffset(m, fc, regNum, 0) == i
  {
  }

  // ---------------------------------------------------------------------
  // The status printers of the driver's source file
  // ---------------------------------------------------------------------

  /** The parameter table of the driver's own `printParameterStatus`: the
      header's table without its bit-12 entry. */
  function CppParameterTable(): (t: seq<Entry>)
    ensures WellFormed(t)
  {
    var t := [
      Entry(15, ParameterBit15),
      Entry(14, ParameterBit14),
      Entry(13, ParameterBit13),
      Entry(11, ParameterBit11),
      Entry(5, ParameterBit5),
      Entry(4, ParameterBit4),
      Entry(3, ParameterBit3),
      Entry(2, ParameterBit2),
      Entry(1, ParameterBit1),
      Entry(0, ParameterBit0)];
    DescendingWellFormed(t);
    t
  }

  /** The driver's own `printParameterStatus`. */
  function PrintParameterStatus(bitmask: bv16): (lines: seq<string>)
    ensures bitmask == 0 ==> lines == [ParameterNormal]
    ensures |lines| == (if bitmask == 0 then 1 else |TabledSetBits(CppParameterTable(), bitmask)|)
    ensures lines == [] <==> bitmask != 0 && bitmask & 0xE83F == 0
  {
    DecodeFacts(CppParameterTable(), ParameterNormal, bitmask);
    CppParameterSilent(bitmask);
    Decode(CppParameterTable(), ParameterNormal, bitmask)
  }

  lemma CppParameterMaskBits(mask: bv16)
    ensures mask & 0xE83F == 0 <==>
      mask & 0x8000 == 0 && mask & 0x4000 == 0 && mask & 0x2000 == 0 &&
      mask & 0x0800 == 0 && mask & 0x0020 == 0 && mask & 0x0010 == 0 && mask & 0x0008 == 0 &&
      mask & 0x0004 == 0 && mask & 0x0002 == 0 && mask & 0x0001 == 0
  {
  }

  /** The driver's parameter printer has no message for bits 6 to 10 and
      12. */
  lemma CppParameterSilent(mask: bv16)
    ensures TabledSetBits(CppParameterTable(), mask) == {} <==> mask & 0xE83F == 0
  {
    var t := CppParameterTable();
    NoTabledBits(t, mask);
    CppParameterMaskBits(mask);
    assert t[0].bit == 15 && t[1].bit == 14 && t[2].bit == 13 && t[3].bit == 11;
    assert t[4].bit == 5 && t[5].bit == 4 && t[6].bit == 3 && t[7].bit == 2;
    assert t[8].bit == 1 && t[9].bit == 0;
  }

  /** The driver's parameter printer fires exactly the header's entries
      other than bit 12's. */
  lemma CppParameterDropsBit12(mask: bv16)
    ensures forall e :: e in Fired(CppParameterTable(), mask) <==> e in Fired(ParameterTable(), mask) && e.bit != 12
  {
    CppFiredInHeader(mask);
    HeaderFiredInCpp(mask);
  }

  /** The driver's table is the header's without its fourth entry, bit 12's. */
  lemma CppTableIsHeaderWithoutBit12()
    ensures |CppParameterTable()| == 10 && |ParameterTable()| == 11
    ensures ParameterTable()[3].bit == 12
    ensures forall i :: 0 <= i < 3 ==> CppParameterTable()[i] == ParameterTable()[i]
    ensures forall i :: 3 <= i < 10 ==> CppParameterTable()[i] == ParameterTable()[i + 1]
  {
  }

  lemma CppFiredInHeader(mask: bv16)
    ensures forall e :: e in Fired(CppParameterTable(), mask) ==> e in Fired(ParameterTable(), mask) && e.bit != 12
  {
    var c, h := CppParameterTable(), ParameterTable();
    CppTableIsHeaderWithoutBit12();
    FiredInOrder(c, mask);
    forall e | e in Fired(c, mask) ensures e in Fired(h, mask) && e.bit != 12 {
      var i :| 0 <= i < |c| && c[i] == e;
      var j := if i < 3 then i else i + 1;
      assert h[j] == e;
      FiredMember(h, mask, j);
    }
  }

  lemma HeaderFiredInCpp(mask: bv16)
    ensures forall e :: e in Fired(ParameterTable(), mask) && e.bit != 12 ==> e in Fired(CppParameterTable(), mask)
  {
    var c, h := CppParameterTable(), ParameterTable();
    CppTableIsHeaderWithoutBit12();
    FiredInOrder(h, mask);
    forall e | e in Fired(h, mask) && e.bit != 12 ensures e in Fired(c, mask) {
      var j :| 0 <= j < |h| && h[j] == e;
      var i := if j < 3 then j else j - 1;
      assert c[i] == e;
      FiredMember(c, mask, i);
    }
  }

  /** Bit 12 alone prints nothing from the driver's printer and one
      message from the header's. */
  lemma Bit12Alone()
    ensures PrintParameterStatus(0x1000) == []
    ensures StatusBitmasks.PrintParameterStatus(0x1000) == [ParameterBit12]
  {
    HeaderBit12Alone();
  }

  lemma HeaderBit12Alone()
    ensures StatusBitmasks.PrintParameterStatus(0x1000) == [ParameterBit12]
  {
    var h := ParameterTable();
    FiredBit12();
    assert h[3].message == ParameterBit12;
    DecodeOne(h, ParameterNormal, 0x1000, h[3]);
  }

  lemma FiredBit12()
    ensures Fired(ParameterTable(), 0x1000) == [ParameterTable()[3]]
  {
    var h := ParameterTable();
    var f := Fired(h, 0x1000);
    OnlyBit12Tabled();
    FiredLength(h, 0x1000);
    FiredInOrder(h, 0x1000);
    FiredMember(h, 0x1000, 3);
    assert |f| == 1 && h[3] in f;
  }

  /** A non-zero word that fires one entry prints that entry's message. */
  lemma DecodeOne(table: seq<Entry>, normal: string, mask: bv16, e: Entry)
    requires WellFormed(table) && mask != 0 && Fired(table, mask) == [e]
    ensures Decode(table, normal, mask) == [e.message]
  {
  }

  lemma OnlyBit12Tabled()
    ensures TabledSetBits(ParameterTable(), 0x1000) == {12}
  {
    var h := ParameterTable();
    forall b | b in TabledSetBits(h, 0x1000) ensures b == 12 {
      Bit12Only(b);
    }
    assert h[3].bit == 12 && 12 in Bits(h);
    Bit12Only(12);
  }

  lemma Bit12Only(b: nat)
    requires b < 16
    ensures BitSet(0x1000, b) <==> b == 12
  {
  }
}
