/** The enumerations of the driver's header: the settings the `set*`
    methods transmit as a single low byte, and the eight spectral sources
    that select a 512-register block of fingerprint data. */
module ScanTypes {
  import opened Bytes

  datatype SpecCommMode = ModbusRTU | ModbusASCII | ModbusTCP
  {
    function Code(): Byte
    {
      match this
      case ModbusRTU => 0
      case ModbusASCII => 1
      case ModbusTCP => 2
    }
  }

  datatype SpecBaudRate = B9600 | B19200 | B38400
  {
    function Code(): Byte
    {
      match this
      case B9600 => 0
      case B19200 => 1
      case B38400 => 2
    }
  }

  datatype SpecParity = NoParity | Even | Odd
  {
    function Code(): Byte
    {
      match this
      case NoParity => 0
      case Even => 1
      case Odd => 2
    }
  }

  datatype CleaningMode = NoCleaning | Manual | Automatic
  {
    function Code(): Byte
    {
      match this
      case NoCleaning => 0
      case Manual => 1
      case Automatic => 2
    }
  }

  datatype SpectralSource =
    | Fingerprint      // absorption spectrum as measured [Abs/m]
    | CompensFP        // turbidity-compensated fingerprint [Abs/m]
    | DerivFP          // first derivative of the fingerprint [Abs/m]
    | Diff2OldOrgFP    // difference from the previous fingerprint [Abs/m]
    | Transmission     // percent transmission [%/cm2]
    | DerivCompFP      // first derivative of the compensated fingerprint [Abs/m]
    | Transmission10   // percent transmission per 10 cm2
    | Other            // eighth block, meaning unknown
  {
    function Code(): nat
    {
      match this
      case Fingerprint => 0
      case CompensFP => 1
      case DerivFP => 2
      case Diff2OldOrgFP => 3
      case Transmission => 4
      case DerivCompFP => 5
      case Transmission10 => 6
      case Other => 7
    }
  }

  /** The enumerator with a given code. */
  function SpectralSourceOf(code: nat): (s: SpectralSource)
    requires code < 8
    ensures s.Code() == code
  {
    [Fingerprint, CompensFP, DerivFP, Diff2OldOrgFP, Transmission, DerivCompFP, Transmission10, Other][code]
  }

  /** The source `getFingerprintData` and the fingerprint printers use when
      the caller gives none. */
  function DefaultSpectralSource(): (s: SpectralSource)
    ensures s.Code() == 0
  {
    Fingerprint
  }

  /** Exactly eight spectral sources, numbered 0 to 7 without gaps or
      repeats. */
  lemma SpectralSourceCodes()
    ensures forall s: SpectralSource :: s.Code() < 8
    ensures forall s: SpectralSource, t: SpectralSource :: s.Code() == t.Code() ==> s == t
    ensures forall s: SpectralSource :: SpectralSourceOf(s.Code()) == s
  {
  }

  /** Each three-valued setting enumerates 0, 1 and 2 and fits the single
      byte the setters transmit; distinct settings have distinct codes. */
  lemma SettingCodes()
    ensures ModbusRTU.Code() == 0 && ModbusASCII.Code() == 1 && ModbusTCP.Code() == 2
    ensures B9600.Code() == 0 && B19200.Code() == 1 && B38400.Code() == 2
    ensures NoParity.Code() == 0 && Even.Code() == 1 && Odd.Code() == 2
    ensures NoCleaning.Code() == 0 && Manual.Code() == 1 && Automatic.Code() == 2
    ensures forall m: SpecCommMode, n: SpecCommMode :: m.Code() == n.Code() ==> m == n
    ensures forall m: SpecBaudRate, n: SpecBaudRate :: m.Code() == n.Code() ==> m == n
    ensures forall m: SpecParity, n: SpecParity :: m.Code() == n.Code() ==> m == n
    ensures forall m: CleaningMode, n: CleaningMode :: m.Code() == n.Code() ==> m == n
  {
  }
}
