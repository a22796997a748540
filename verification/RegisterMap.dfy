/** The vendor register map: which register each getter of the driver
    reads, in which address space, and how many registers the value
    occupies.  Repeating structures are laid out as `base + stride * index`:
    parameter configuration at `120 * n` in the holding registers,
    parameter results at `120 + 8 * n` in the input registers, fingerprint
    blocks at `512 * s` in the input registers and reference blocks at
    `1519 + 536 * r`. */
module RegisterMap {
  import opened Bytes
  import opened Modbus
  import opened ScanTypes

  datatype RegisterSpace = Holding | Input
  {
    /** The function code that reads this space. */
    function ReadCode(): Byte
    {
      if Holding? then ReadHoldingRegisters else ReadInputRegisters
    }
  }

  /** How a field is encoded, which fixes how many registers it spans. */
  datatype ValueType =
    | UInt16Value
    | Int16Value
    | PointerValue
    | Float32Value
    | TextValue(chars: nat)
    | TAI64NValue
    | Float32Array(length: nat)

  function Width(t: ValueType): nat
  {
    match t
    case UInt16Value => 1
    case Int16Value => 1
    case PointerValue => 1
    case Float32Value => 2
    case TextValue(chars) => chars / 2
    case TAI64NValue => 6          // 12-byte label: 8 bytes of seconds, 4 of nanoseconds
    case Float32Array(length) => 2 * length
  }

  /** One field of the map: the registers `[start, start + Width(kind))`
      of `space`. */
  datatype FieldRead = FieldRead(space: RegisterSpace, start: int, kind: ValueType)
  {
    function End(): int
    {
      start + Width(kind)
    }

    /** Every register of the field is a valid 16-bit register address. */
    predicate InRange16()
    {
      0 <= start && End() <= 0x1_0000
    }

    /** The read request a getter issues for this field. */
    function Request(): Modbus.Request
    {
      Modbus.Request(space.ReadCode(), start, Width(kind))
    }
  }

  /** Two fields share no register. */
  predicate Disjoint(a: FieldRead, b: FieldRead)
  {
    a.space != b.space || a.End() <= b.start || b.End() <= a.start
  }

  // ---------------------------------------------------------------------
  // Fixed device registers
  // ---------------------------------------------------------------------

  datatype DeviceField =
    // holding registers
    | CommunicationMode | BaudRate | Parity | PrivateConfig | ScanPoint
    | CleaningModeSetting | CleaningInterval | CleaningDuration | CleaningWait
    | SystemTime | MeasInterval | LoggingMode | LoggingInterval
    | NumLoggedResults | IndexLogResult
    | CurrentReferenceNumber | CurrentReferenceName | CurrentReferenceTime
    // input registers
    | ModbusVersion | ModelType | Model | SerialNumber | HWVersion | SWVersion
    | HWStarts | ParameterCount | ParameterType | ParameterScale
    | ParameterTime | DeviceStatus | PathLength

  /** The register each fixed-address getter reads. */
  function DeviceRead(f: DeviceField): FieldRead
  {
    match f
    case CommunicationMode => FieldRead(Holding, 1, UInt16Value)
    case BaudRate => FieldRead(Holding, 2, UInt16Value)
    case Parity => FieldRead(Holding, 3, UInt16Value)
    case PrivateConfig => FieldRead(Holding, 5, PointerValue)
    case ScanPoint => FieldRead(Holding, 6, TextValue(12))
    case CleaningModeSetting => FieldRead(Holding, 12, UInt16Value)
    case CleaningInterval => FieldRead(Holding, 13, UInt16Value)
    case CleaningDuration => FieldRead(Holding, 14, UInt16Value)
    case CleaningWait => FieldRead(Holding, 15, UInt16Value)
    case SystemTime => FieldRead(Holding, 16, TAI64NValue)
    case MeasInterval => FieldRead(Holding, 22, UInt16Value)
    case LoggingMode => FieldRead(Holding, 23, UInt16Value)
    case LoggingInterval => FieldRead(Holding, 24, UInt16Value)
    case NumLoggedResults => FieldRead(Holding, 25, UInt16Value)
    case IndexLogResult => FieldRead(Holding, 26, UInt16Value)
    case CurrentReferenceNumber => FieldRead(Holding, 1507, Int16Value)
    case CurrentReferenceName => FieldRead(Holding, 1508, TextValue(8))
    case CurrentReferenceTime => FieldRead(Holding, 1512, TAI64NValue)
    case ModbusVersion => FieldRead(Input, 0, UInt16Value)
    case ModelType => FieldRead(Input, 2, UInt16Value)
    case Model => FieldRead(Input, 3, TextValue(20))
    case SerialNumber => FieldRead(Input, 13, TextValue(8))
    case HWVersion => FieldRead(Input, 17, TextValue(4))
    case SWVersion => FieldRead(Input, 19, TextValue(4))
    case HWStarts => FieldRead(Input, 21, UInt16Value)
    case ParameterCount => FieldRead(Input, 22, UInt16Value)
    case ParameterType => FieldRead(Input, 23, UInt16Value)
    case ParameterScale => FieldRead(Input, 24, UInt16Value)
    case ParameterTime => FieldRead(Input, 104, TAI64NValue)
    case DeviceStatus => FieldRead(Input, 120, UInt16Value)
    case PathLength => FieldRead(Input, 520, UInt16Value)
  }

  // ---------------------------------------------------------------------
  // Parameters (1-based parameter number n)
  // ---------------------------------------------------------------------

  datatype ParameterField =
    | Name | Units | UpperLimit | LowerLimit
    | CalibOffset | CalibSlope | CalibX2 | CalibX3 | Precision

  function ParameterOffset(f: ParameterField): nat
  {
    match f
    case Name => 0
    case Units => 4
    case UpperLimit => 8
    case LowerLimit => 10
    case CalibOffset => 14
    case CalibSlope => 16
    case CalibX2 => 18
    case CalibX3 => 20
    case Precision => 26
  }

  function ParameterKind(f: ParameterField): ValueType
  {
    match f
    case Name => TextValue(8)
    case Units => TextValue(8)
    case Precision => UInt16Value
    case _ => Float32Value
  }

  /** `getParameterName` ... `getParameterPrecision`: holding registers
      from `120 * n`. */
  function ParameterConfigRead(parmNumber: int, f: ParameterField): FieldRead
  {
    FieldRead(Holding, 120 * parmNumber + ParameterOffset(f), ParameterKind(f))
  }

  /** `getParameterStatus`: input register `120 + 8 * n`. */
  function ParameterStatusRead(parmNumber: int): FieldRead
  {
    FieldRead(Input, 120 + 8 * parmNumber, UInt16Value)
  }

  /** `getParameterValue`: the float at input register `120 + 8 * n + 2`. */
  function ParameterValueRead(parmNumber: int): FieldRead
  {
    FieldRead(Input, 120 + 8 * parmNumber + 2, Float32Value)
  }

  // ---------------------------------------------------------------------
  // Fingerprints (spectral source s)
  // ---------------------------------------------------------------------

  datatype FingerprintField = FpTime | FpDetector | FpSource | FpPathLength | FpStatus | FpData

  function FingerprintBase(f: FingerprintField): nat
  {
    match f
    case FpTime => 512
    case FpDetector => 518
    case FpSource => 519
    case FpPathLength => 520
    case FpStatus => 521
    case FpData => 522
  }

  function FingerprintKind(f: FingerprintField): ValueType
  {
    match f
    case FpTime => TAI64NValue
    case FpData => Float32Array(221)
    case _ => UInt16Value
  }

  /** `getFingerprintTime` ... `getFingerprintStatus` and the data that
      `getFingerprintData` fetches: input registers at `base + 512 * s`. */
  function FingerprintRead(source: SpectralSource, f: FingerprintField): FieldRead
  {
    FieldRead(Input, FingerprintBase(f) + 512 * source.Code(), FingerprintKind(f))
  }

  // ---------------------------------------------------------------------
  // References (0-based reference number r)
  // ---------------------------------------------------------------------

  datatype ReferenceField =
    | RefName | RefDarkNoise | RefAvgK | RefAvgM | RefFlashRate | RefLampVoltage
    | RefDetector | RefRepetitions | RefLpFilter | RefFUG | RefType | RefOffset | RefTime

  function ReferenceBase(f: ReferenceField): nat
  {
    match f
    case RefName => 1519
    case RefDarkNoise => 1523
    case RefAvgK => 1525
    case RefAvgM => 1526
    case RefFlashRate => 1527
    case RefLampVoltage => 1528
    case RefDetector => 1529
    case RefRepetitions => 1530
    case RefLpFilter => 1531
    case RefFUG => 1532
    case RefType => 1533
    case RefOffset => 1534
    case RefTime => 1536
  }

  function ReferenceKind(f: ReferenceField): ValueType
  {
    match f
    case RefName => TextValue(8)
    case RefDarkNoise => Float32Value
    case RefDetector => UInt16Value
    case RefTime => TAI64NValue
    case _ => Int16Value
  }

  /** `getReferenceName` ... `getReferenceTime`: holding registers at
      `base + 536 * r`. */
  function ReferenceRead(refNumber: int, f: ReferenceField): FieldRead
  {
    FieldRead(Holding, ReferenceBase(f) + 536 * refNumber, ReferenceKind(f))
  }

  /** The values `getReferenceValues` fetches: 512 input registers from
      `1542 + 536 * r`. */
  function ReferenceValuesRead(refNumber: int): FieldRead
  {
    FieldRead(Input, 1542 + 536 * refNumber, Float32Array(256))
  }

  // ---------------------------------------------------------------------
  // Properties of the map
  // ---------------------------------------------------------------------

  /** Consecutive parameters are exactly one stride apart: 120 registers
      for the configuration, 8 for the results. */
  lemma ParameterStride(n: int, f: ParameterField)
    ensures ParameterConfigRead(n + 1, f).start == ParameterConfigRead(n, f).start + 120
    ensures ParameterStatusRead(n + 1).start == ParameterStatusRead(n).start + 8
    ensures ParameterValueRead(n + 1).start == ParameterValueRead(n).start + 8
    ensures ParameterValueRead(n).start == ParameterStatusRead(n).start + 2
  {
  }

  /** Within one parameter, no two configuration fields share a register,
      and the whole configuration lies in `[120 n, 120 n + 27)`. */
  lemma ParameterFieldsDisjoint(n: int, f: ParameterField, g: ParameterField)
    requires f != g
    ensures Disjoint(ParameterConfigRead(n, f), ParameterConfigRead(n, g))
    ensures 120 * n <= ParameterConfigRead(n, f).start && ParameterConfigRead(n, f).End() <= 120 * n + 27
  {
  }

  /** Different parameters never share a register, in either space. */
  lemma ParameterBlocksDisjoint(n: int, m: int, f: ParameterField, g: ParameterField)
    requires n != m
    ensures Disjoint(ParameterConfigRead(n, f), ParameterConfigRead(m, g))
    ensures Disjoint(ParameterStatusRead(n), ParameterStatusRead(m))
    ensures Disjoint(ParameterValueRead(n), ParameterValueRead(m))
    ensures Disjoint(ParameterStatusRead(n), ParameterValueRead(m))
  {
    if n < m {
      assert 120 * n + 120 <= 120 * m;
    } else {
      assert 120 * m + 120 <= 120 * n;
    }
  }

  /** A parameter's registers are all valid 16-bit addresses exactly for
      the parameter numbers 0 to 545 (the precision register of 546 would
      be 65546). */
  lemma ParameterInRange(n: int)
    ensures (forall f: ParameterField :: ParameterConfigRead(n, f).InRange16())
            && ParameterStatusRead(n).InRange16() && ParameterValueRead(n).InRange16()
            <==> 0 <= n <= 545
  {
    if 0 <= n <= 545 {
      assert 120 * n + 27 <= 65427;
    } else if n < 0 {
      assert !ParameterConfigRead(n, Name).InRange16();
    } else {
      assert 120 * n + 27 >= 65547;
      assert !ParameterConfigRead(n, Precision).InRange16();
    }
  }

  /** For the up to eight parameters a device measures, no parameter
      register is also a fixed device register. */
  lemma ParametersAvoidDeviceRegisters(n: int, f: ParameterField, d: DeviceField)
    requires 1 <= n <= 8
    ensures Disjoint(ParameterConfigRead(n, f), DeviceRead(d))
    ensures Disjoint(ParameterStatusRead(n), DeviceRead(d))
    ensures Disjoint(ParameterValueRead(n), DeviceRead(d))
  {
  }

  /** Within one spectral source no two fingerprint fields overlap, and the
      whole block lies in `[512 + 512 s, 964 + 512 s)`. */
  lemma FingerprintFieldsDisjoint(s: SpectralSource, f: FingerprintField, g: FingerprintField)
    requires f != g
    ensures Disjoint(FingerprintRead(s, f), FingerprintRead(s, g))
    ensures 512 + 512 * s.Code() <= FingerprintRead(s, f).start
    ensures FingerprintRead(s, f).End() <= 964 + 512 * s.Code()
  {
  }

  /** The blocks of different spectral sources never overlap: each spans
      452 registers and the stride is 512. */
  lemma FingerprintBlocksDisjoint(s: SpectralSource, t: SpectralSource, f: FingerprintField, g: FingerprintField)
    requires s != t
    ensures Disjoint(FingerprintRead(s, f), FingerprintRead(t, g))
  {
    SpectralSourceCodes();
    if s.Code() < t.Code() {
      assert 512 * s.Code() + 512 <= 512 * t.Code();
    } else {
      assert 512 * t.Code() + 512 <= 512 * s.Code();
    }
  }

  /** Every fingerprint register of every source is a 16-bit address; the
      last data register of the last source is 522 + 512 * 7 + 441. */
  lemma FingerprintInRange(s: SpectralSource, f: FingerprintField)
    ensures FingerprintRead(s, f).InRange16()
    ensures FingerprintRead(s, FpData).End() - 1 == 522 + 512 * s.Code() + 441
    ensures FingerprintRead(Other, FpData).End() - 1 == 4547
  {
  }

  /** `getPathLength` reads the path-length register of the first
      fingerprint block. */
  lemma PathLengthIsFingerprintPathLength()
    ensures DeviceRead(PathLength) == FingerprintRead(Fingerprint, FpPathLength)
  {
  }

  /** Within one reference the configuration fields do not overlap; they
      occupy `[1519 + 536 r, 1542 + 536 r)`, just below where the values
      begin. */
  lemma ReferenceFieldsDisjoint(r: int, f: ReferenceField, g: ReferenceField)
    requires f != g
    ensures Disjoint(ReferenceRead(r, f), ReferenceRead(r, g))
    ensures 1519 + 536 * r <= ReferenceRead(r, f).start
    ensures ReferenceRead(r, f).End() <= ReferenceValuesRead(r).start
  {
  }

  /** Different references never share a register, for the configuration
      fields and for the values. */
  lemma ReferenceBlocksDisjoint(r: int, q: int, f: ReferenceField, g: ReferenceField)
    requires r != q
    ensures Disjoint(ReferenceRead(r, f), ReferenceRead(q, g))
    ensures Disjoint(ReferenceValuesRead(r), ReferenceValuesRead(q))
  {
    if r < q {
      assert 536 * r + 536 <= 536 * q;
    } else {
      assert 536 * q + 536 <= 536 * r;
    }
  }

  /** A reference's registers are all 16-bit addresses exactly for the
      reference numbers 0 to 118 (the values of 119 would end at 65837). */
  lemma ReferenceInRange(r: nat)
    ensures (forall f: ReferenceField :: ReferenceRead(r, f).InRange16())
            && ReferenceValuesRead(r).InRange16()
            <==> r <= 118
  {
    if r <= 118 {
      assert 536 * r + 2054 <= 65302;
    } else {
      assert 536 * r + 2054 >= 65838;
      assert !ReferenceValuesRead(r).InRange16();
    }
  }

  /** The reference values are read from the input registers, where the
      span of reference 0 (1542 to 2053) is also the data of the
      derivative fingerprint (source 2, 1546 to 1987): the two getters
      read overlapping registers. */
  lemma ReferenceValuesOverlapFingerprintData()
    ensures !Disjoint(ReferenceValuesRead(0), FingerprintRead(DerivFP, FpData))
    ensures ReferenceValuesRead(0).space != ReferenceRead(0, RefTime).space
  {
  }
}
