/** The adapter that presents the probe as one sensor of a data logger:
    the location text built from the Modbus address, and the bookkeeping
    of one measurement (parameter values copied out, NaN replaced by the
    logger's missing-value number, the status byte and request time
    updated).  The logger's own `Sensor`/`Variable` classes are not part
    of this model: `verifyAndAddMeasurementResult` is recorded as the
    (variable, value) pairs handed to it. */
module SensorLinker {
  import opened Bytes
  import opened Text
  import opened Modbus
  import opened RegisterMap
  import opened ScanModbus

  // ---------------------------------------------------------------------
  // Location
  // ---------------------------------------------------------------------

  const LocationPrefix: string := "modbus_0x"

  /** The text of `getSensorLocation`: "modbus_0x" and the address in two lower-case
      hexadecimal digits, a "0" in front of addresses below 16. */
  function SensorLocation(modbusAddress: Byte): (s: string)
    ensures |s| == |LocationPrefix| + 2 && s[..|LocationPrefix|] == LocationPrefix
    ensures IsDigits(s[|LocationPrefix|..], 16) && DigitsValue(s[|LocationPrefix|..], 16) == modbusAddress
  {
    PaddedHex(modbusAddress);
    LocationPrefix + (if modbusAddress < 16 then "0" else "") + NatToString(modbusAddress, 16)
  }

  lemma PaddedHex(b: Byte)
    ensures var h := (if b < 16 then "0" else "") + NatToString(b, 16);
      |h| == 2 && IsDigits(h, 16) && DigitsValue(h, 16) == b
  {
    NatToStringLength(b, 16);
    NatToStringRoundTrip(b, 16);
    if b < 16 {
      LeadingZeroValue(NatToString(b, 16), 16);
    }
    var h := (if b < 16 then "0" else "") + NatToString(b, 16);
    assert LocationPrefix + h == LocationPrefix + (if b < 16 then "0" else "") + NatToString(b, 16);
  }

  /** Distinct addresses get distinct locations. */
  lemma LocationsDistinct(a: Byte, b: Byte)
    requires a != b
    ensures SensorLocation(a) != SensorLocation(b)
  {
  }

  // ---------------------------------------------------------------------
  // Measurement values
  // ---------------------------------------------------------------------

  /** A 32-bit pattern is a NaN (`isnan`): the patterns above the
      infinity of either sign. */
  predicate IsNaN(x: UInt32)
  {
    0x7F80_0000 < x < 0x8000_0000 || 0xFF80_0000 < x
  }

  /** The NaN patterns are exactly those whose exponent field (bits 23 to
      30) is all ones and whose mantissa field (bits 0 to 22) is not zero. */
  lemma NaNFields(x: UInt32)
    ensures IsNaN(x) <==> (x / 0x80_0000) % 0x100 == 0xFF && x % 0x80_0000 != 0
  {
    var e, f := x / 0x80_0000, x % 0x80_0000;
    assert x == e * 0x80_0000 + f;
    assert e < 0x200;
    if e < 0x100 {
      assert e % 0x100 == e;
    } else {
      assert e % 0x100 == e - 0x100;
    }
  }

  /** The logger's missing value, -9999 as a single-precision float. */
  const MissingValue: UInt32 := 0xC61C_3C00

  /** Number of value slots the driver reserves. */
  const ValueSlots: nat := 8

  /** `SCAN_NUM_VARIABLES`: the variables the header defines. */
  const ScanNumVariables: nat := 10

  /** A value as it is handed on: NaN becomes the missing value. */
  function Cleaned(x: UInt32): (y: UInt32)
    ensures !IsNaN(y)
    ensures y == x || y == MissingValue
    ensures y == x <==> !IsNaN(x)
  {
    if IsNaN(x) then MissingValue else x
  }

  /** The value of parameter `p` the probe reports. */
  function ParameterValueAt(m: ModbusMaster, p: int): UInt32
  {
    m.float32(m.respond(ReadInputRegisters, ParameterValueRead(p).start, 2), HeaderBytes)
  }

  /** The number of parameters the probe reports. */
  function ParameterCountAt(m: ModbusMaster): UInt16
  {
    m.Uint16At(ReadInputRegisters, DeviceRead(ParameterCount).start)
  }

  /** The results one measurement hands on: variable `i` gets parameter
      `i + 1`, cleaned. */
  function Results(m: ModbusMaster, n: nat): seq<(nat, UInt32)>
  {
    if n == 0 then [] else Results(m, n - 1) + [(n - 1, Cleaned(ParameterValueAt(m, n)))]
  }

  /** The value reads of one measurement: parameters `1 .. n`. */
  function ValueReads(n: nat): seq<Request>
  {
    if n == 0 then [] else ValueReads(n - 1) + [ParameterValueRead(n).Request()]
  }

  /** The status byte after a measurement: bit 5 ("measurement requested")
      cleared, bit 6 ("measurement complete") set. */
  function StatusAfterMeasurement(status: bv8): (r: bv8)
    ensures r & 0x20 == 0
    ensures r & 0x40 == 0x40
    ensures r & 0x9F == status & 0x9F
  {
    (status & 0xDF) | 0x40
  }

  /** Updating the status twice is updating it once. */
  lemma StatusAfterMeasurementIdempotent(status: bv8)
    ensures StatusAfterMeasurement(StatusAfterMeasurement(status)) == StatusAfterMeasurement(status)
  {
  }

  lemma MissingValueIsNotNaN()
    ensures !IsNaN(MissingValue)
    ensures Cleaned(MissingValue) == MissingValue
  {
  }

  /** As written, the loop stores parameter `i + 1` in `values[i]` for
      every `i` below the reported count, and `values` has eight slots:
      the writes stay in the array exactly when the count is at most
      eight. */
  predicate AsWrittenStoresInBounds(nparms: nat)
  {
    var stores := AsWrittenStoreIndices(nparms);
    forall k :: 0 <= k < |stores| ==> stores[k] < ValueSlots
  }

  /** The indices of `values` the loop stores to, in order. */
  function AsWrittenStoreIndices(nparms: nat): seq<nat>
  {
    seq(nparms, i requires 0 <= i < nparms => i)
  }

  /** A reported count of 10 (the header's `SCAN_NUM_VARIABLES`) overruns:
      the loop writes two slots past the array. */
  lemma AsWrittenValuesOverrun()
    ensures AsWrittenStoresInBounds(ValueSlots)
    ensures !AsWrittenStoresInBounds(ScanNumVariables)
    ensures forall n: nat :: AsWrittenStoresInBounds(n) <==> n <= ValueSlots
  {
    forall n: nat | n > ValueSlots ensures !AsWrittenStoresInBounds(n) {
      assert AsWrittenStoreIndices(n)[ValueSlots] == ValueSlots;
    }
  }

  class ScanSensor {
    const sensor: Scan
    /** `_modbusAddress` */
    const modbusAddress: Byte
    /** `_millisMeasurementRequested`: 0 when no measurement is pending. */
    var millisMeasurementRequested: UInt32
    /** `_sensorStatus` */
    var sensorStatus: bv8
    /** The (variable, value) pairs handed to `verifyAndAddMeasurementResult`. */
    var results: seq<(nat, UInt32)>

    constructor (sensor: Scan, modbusAddress: Byte)
      ensures this.sensor == sensor && this.modbusAddress == modbusAddress
      ensures millisMeasurementRequested == 0 && sensorStatus == 0 && results == []
    {
      this.sensor := sensor;
      this.modbusAddress := modbusAddress;
      millisMeasurementRequested := 0;
      sensorStatus := 0;
      results := [];
    }

    /** `getSensorLocation` */
    function GetSensorLocation(): string
    {
      SensorLocation(modbusAddress)
    }

    /** `addSingleMeasurementResult`: when a measurement is pending, hands
        on the value of every reported parameter (one slot per parameter);
        then clears the request time, clears bit 5 and sets bit 6 of the
        status, and reports success. */
    method AddSingleMeasurementResult() returns (ok: bool)
      modifies this, sensor.modbus
      ensures ok
      ensures millisMeasurementRequested == 0
      ensures sensorStatus == StatusAfterMeasurement(old(sensorStatus))
      ensures sensor.modbus.writes == old(sensor.modbus.writes)
      ensures old(millisMeasurementRequested) == 0 ==>
        results == old(results) && sensor.modbus.log == old(sensor.modbus.log)
      ensures old(millisMeasurementRequested) > 0 ==>
        results == old(results) + Results(sensor.modbus, ParameterCountAt(sensor.modbus)) &&
        sensor.modbus.log == old(sensor.modbus.log) + [DeviceRead(ParameterCount).Request()]
                             + ValueReads(ParameterCountAt(sensor.modbus))
    {
      if millisMeasurementRequested > 0 {
        HandOnParameterValues();
      }
      millisMeasurementRequested := 0;
      sensorStatus := sensorStatus & 0xDF;
      sensorStatus := sensorStatus | 0x40;
      ok := true;
    }

    /** The pending-measurement branch: reads the parameter count, then
        each parameter's value into a slot of `values` (NaN replaced by
        the missing value) and hands it on. */
    method HandOnParameterValues()
      modifies this`results, sensor.modbus
      ensures results == old(results) + Results(sensor.modbus, ParameterCountAt(sensor.modbus))
      ensures sensor.modbus.log == old(sensor.modbus.log) + [DeviceRead(ParameterCount).Request()]
                                   + ValueReads(ParameterCountAt(sensor.modbus))
      ensures sensor.modbus.writes == old(sensor.modbus.writes)
    {
      var nparms := sensor.GetParameterCount();
      assert nparms == ParameterCountAt(sensor.modbus);
      var values := new UInt32[if nparms > ValueSlots then nparms else ValueSlots](_ => MissingValue);
      HandOnEach(values, nparms);
    }

    /** The loop over the reported parameters. */
    method HandOnEach(values: array<UInt32>, nparms: nat)
      requires nparms <= values.Length
      modifies this`results, sensor.modbus, values
      ensures results == old(results) + Results(sensor.modbus, nparms)
      ensures sensor.modbus.log == old(sensor.modbus.log) + ValueReads(nparms)
      ensures sensor.modbus.writes == old(sensor.modbus.writes)
    {
      var m := sensor.modbus;
      ghost var log1, results0 := m.log, results;
      var i: nat := 0;
      while i < nparms
        invariant i <= nparms
        invariant results == results0 + Results(m, i)
        invariant m.log == log1 + ValueReads(i)
        invariant m.writes == old(m.writes)
      {
        ghost var r, l := results, m.log;
        HandOnParameterValue(values, i);
        ResultsSnoc(results0, m, i, r, results, values[i]);
        ValueReadsSnoc(log1, i, l, m.log);
        i := i + 1;
      }
    }

    /** One pass of the loop: `values[i]` takes parameter `i + 1`, NaN
        replaced by the missing value, and is handed on as variable `i`. */
    method HandOnParameterValue(values: array<UInt32>, i: nat)
      requires i < values.Length
      modifies this`results, sensor.modbus, values
      ensures values[i] == Cleaned(ParameterValueAt(sensor.modbus, i + 1))
      ensures values[..] == old(values[..])[i := values[i]]
      ensures results == old(results) + [(i, values[i])]
      ensures sensor.modbus.log == old(sensor.modbus.log) + [ParameterValueRead(i + 1).Request()]
      ensures sensor.modbus.writes == old(sensor.modbus.writes)
    {
      values[i] := sensor.GetParameterValue(i + 1);
      if IsNaN(values[i]) {
        values[i] := MissingValue;
      }
      results := results + [(i, values[i])];
    }
  }

  lemma ResultsSnoc(r0: seq<(nat, UInt32)>, m: ModbusMaster, n: nat, r1: seq<(nat, UInt32)>, r2: seq<(nat, UInt32)>, v: UInt32)
    requires r1 == r0 + Results(m, n)
    requires v == Cleaned(ParameterValueAt(m, n + 1))
    requires r2 == r1 + [(n, v)]
    ensures r2 == r0 + Results(m, n + 1)
  {
  }

  lemma ValueReadsSnoc(log0: seq<Request>, n: nat, log1: seq<Request>, log2: seq<Request>)
    requires log1 == log0 + ValueReads(n)
    requires log2 == log1 + [ParameterValueRead(n + 1).Request()]
    ensures log2 == log0 + ValueReads(n + 1)
  {
  }
}
