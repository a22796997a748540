/** The `parse*` tables: total maps from a register's code to the text (or,
    for the baud rate, the number) the driver prints, each with a fallback
    for codes outside the table; and the map from a pointer's register-type
    code to the Modbus function code `getCurrentGlobalCal` reads with. */
module ParseTables {
  import opened Bytes
  import opened Text
  import opened ScanTypes
  import opened Modbus
  import opened Payloads

  const Unknown: string := "Unknown"

  /** `parseCommunicationMode` */
  function ParseCommunicationMode(code: UInt16): (s: string)
    ensures s == Unknown <==> code > 2
  {
    if code == 0 then "Modbus RTU"
    else if code == 1 then "Modbus ASCII"
    else if code == 2 then "Modbus TCP"
    else Unknown
  }

  /** `parseBaudRate`: the table gives text, which `String::toInt` turns
      into the number returned. */
  function ParseBaudRate(code: UInt16): (baud: nat)
    ensures code == 0 ==> baud == 9600
    ensures code == 1 ==> baud == 19200
    ensures code == 2 ==> baud == 38400
    ensures baud == 0 <==> code > 2
  {
    var text := if code == 0 then "9600" else if code == 1 then "19200" else if code == 2 then "38400" else "0";
    BaudTextValues();
    DigitsValue(text, 10)
  }

  /** The values of the four texts of the baud-rate table. */
  lemma BaudTextValues()
    ensures IsDigits("9600", 10) && DigitsValue("9600", 10) == 9600
    ensures IsDigits("19200", 10) && DigitsValue("19200", 10) == 19200
    ensures IsDigits("38400", 10) && DigitsValue("38400", 10) == 38400
    ensures IsDigits("0", 10) && DigitsValue("0", 10) == 0
  {
    ShortBaudTexts();
    LongBaudTexts();
  }

  lemma ShortBaudTexts()
    ensures IsDigits("9600", 10) && DigitsValue("9600", 10) == 9600
    ensures IsDigits("0", 10) && DigitsValue("0", 10) == 0
  {
    DecimalText(9600, "9600");
    DecimalText(0, "0");
  }

  lemma LongBaudTexts()
    ensures IsDigits("19200", 10) && DigitsValue("19200", 10) == 19200
    ensures IsDigits("38400", 10) && DigitsValue("38400", 10) == 38400
  {
    Baud19200Text();
    Baud38400Text();
  }

  lemma Baud19200Text()
    ensures IsDigits("19200", 10) && DigitsValue("19200", 10) == 19200
  {
    DecimalText(19200, "19200");
  }

  lemma Baud38400Text()
    ensures IsDigits("38400", 10) && DigitsValue("38400", 10) == 38400
  {
    DecimalText(38400, "38400");
  }

  /** A text that `String(n)` renders reads back as `n`. */
  lemma DecimalText(n: nat, s: string)
    requires NatToString(n, 10) == s
    ensures IsDigits(s, 10) && DigitsValue(s, 10) == n
  {
    NatToStringRoundTrip(n, 10);
  }

  /** `parseParity` */
  function ParseParity(code: UInt16): (s: string)
    ensures s == Unknown <==> code > 2
  {
    if code == 0 then "no parity"
    else if code == 1 then "even parity"
    else if code == 2 then "odd parity"
    else Unknown
  }

  /** `parseRegisterType`: the two-bit register type of a pointer. */
  function ParseRegisterType(code: UInt16): (s: string)
    ensures s == Unknown <==> code > 3
  {
    if code == 0 then "Holding register"
    else if code == 1 then "Input register"
    else if code == 2 then "Discrete input register"
    else if code == 3 then "Coil"
    else Unknown
  }

  /** `parseCleaningMode` */
  function ParseCleaningMode(code: UInt16): (s: string)
    ensures s == Unknown <==> code > 2
  {
    if code == 0 then "no cleaning supported"
    else if code == 1 then "manual"
    else if code == 2 then "automatic"
    else Unknown
  }

  /** `parseLoggingMode`: 0 is on, every other code is off. */
  function ParseLoggingMode(code: UInt16): (s: string)
    ensures s == "Logging On" <==> code == 0
    ensures s == "Logging Off" <==> code != 0
  {
    if code == 0 then "Logging On" else "Logging Off"
  }

  /** `parseParameterType` */
  function ParseParameterType(code: UInt16): (s: string)
    ensures s == Unknown <==> code > 4
  {
    if code == 0 then "uint16?"
    else if code == 1 then "enum?"
    else if code == 2 then "bitmask?"
    else if code == 3 then "char?"
    else if code == 4 then "float?"
    else Unknown
  }

  /** The function code `getCurrentGlobalCal` reads the private
      configuration with, for the pointer's register type, as the driver
      has it: holding 0x03, input 0x04, discrete input 0x02, coil 0x05,
      anything else 0x00. */
  function RegisterTypeReadCode(pointerType: int): (fc: Byte)
    ensures fc == 0 <==> !(0 <= pointerType <= 3)
    ensures pointerType == 0 ==> fc == ReadHoldingRegisters
    ensures pointerType == 1 ==> fc == ReadInputRegisters
    ensures pointerType == 2 ==> fc == ReadDiscreteInputs
  {
    if pointerType == 0 then 0x03
    else if pointerType == 1 then 0x04
    else if pointerType == 2 then 0x02
    else if pointerType == 3 then 0x05
    else 0x00
  }

  predicate IsReadCode(fc: Byte)
  {
    fc == ReadCoils || fc == ReadDiscreteInputs || fc == ReadHoldingRegisters || fc == ReadInputRegisters
  }

  /** For a coil pointer the driver reads with Write Single Coil: a write
      request, where the register-type table names 0x01 as the coil read. */
  lemma CoilPointerReadsWithWriteCode()
    ensures ParseRegisterType(3) == "Coil"
    ensures RegisterTypeReadCode(3) == WriteSingleCoil
    ensures !IsReadCode(RegisterTypeReadCode(3))
  {
  }

  /** The mapping the register-type table describes: each known type to
      the read command for its register space (coils 0x01). */
  function IntendedRegisterTypeReadCode(pointerType: int): (fc: Byte)
    ensures IsReadCode(fc) <==> 0 <= pointerType <= 3
    ensures fc == 0 <==> !(0 <= pointerType <= 3)
    ensures 0 <= pointerType <= 2 ==> fc == RegisterTypeReadCode(pointerType)
  {
    if pointerType == 3 then ReadCoils else RegisterTypeReadCode(pointerType)
  }

  /** Distinct known register types are read with distinct commands. */
  lemma IntendedReadCodesDistinct(a: int, b: int)
    requires 0 <= a <= 3 && 0 <= b <= 3 && a != b
    ensures IntendedRegisterTypeReadCode(a) != IntendedRegisterTypeReadCode(b)
  {
  }

  /** A setting the driver writes reads back as a known name, and distinct
      settings read back as distinct names. */
  lemma CommunicationModeReadBack(m: SpecCommMode, n: SpecCommMode)
    ensures ParseCommunicationMode(SetCommunicationMode(m).FirstRegister()) != Unknown
    ensures (ParseCommunicationMode(SetCommunicationMode(m).FirstRegister())
             == ParseCommunicationMode(SetCommunicationMode(n).FirstRegister())) ==> m == n
  {
  }

  lemma BaudRateReadBack(m: SpecBaudRate, n: SpecBaudRate)
    ensures ParseBaudRate(SetBaudRate(m).FirstRegister()) != 0
    ensures ParseBaudRate(SetBaudRate(m).FirstRegister()) == ParseBaudRate(SetBaudRate(n).FirstRegister()) ==> m == n
  {
  }

  lemma ParityReadBack(m: SpecParity, n: SpecParity)
    ensures ParseParity(SetParity(m).FirstRegister()) != Unknown
    ensures ParseParity(SetParity(m).FirstRegister()) == ParseParity(SetParity(n).FirstRegister()) ==> m == n
  {
  }

  lemma CleaningModeReadBack(m: CleaningMode, n: CleaningMode)
    ensures ParseCleaningMode(SetCleaningMode(m).FirstRegister()) != Unknown
    ensures (ParseCleaningMode(SetCleaningMode(m).FirstRegister())
             == ParseCleaningMode(SetCleaningMode(n).FirstRegister())) ==> m == n
  {
  }

  /** `setLoggingMode(0)` reads back as on, any other mode as off. */
  lemma LoggingModeReadBack(mode: Byte)
    ensures ParseLoggingMode(SetLoggingMode(mode).FirstRegister()) == (if mode == 0 then "Logging On" else "Logging Off")
  {
  }
}
