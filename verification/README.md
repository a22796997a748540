# S::CAN spectro::lyser Modbus driver — Dafny model

This project models the core of the Arduino driver for the s::can
spectro::lyser UV-Vis probe. The driver talks Modbus RTU to the probe.
The model covers:

- **The vendor register map.** Each getter reads one field. The parameter
  configuration sits at `120 * n` in the holding registers. The parameter
  status and value sit at `120 + 8 * n` in the input registers. The eight
  fingerprint blocks sit at `512 * s`, and the reference blocks at
  `1519 + 536 * r`. The map lives in `RegisterMap`, and the properties of
  its strides, overlaps and 16-bit range are proved there.
- **The chunked spectral fetchers** `getFingerprintData` and
  `getReferenceValues`. Each is an imperative method on class
  `ScanModbus.Scan`. It issues a fixed plan of Read Input Registers requests
  (function code 0x04, section 6.4 of the Modbus Application Protocol
  Specification V1.1b3) and fills the caller's `array` in place, batch by
  batch, as the C++ code does: decode index `3 + 2 * i`, with the reference
  fetcher's overlapping fifth batch. The specification function
  `SpectralFetch.Fill` describes the array they leave, and the lemmas in
  `SpectralFetch` say which batch each element comes from.
- **The write payloads** of every `set*` method, `resetSettings` and
  `setSlaveID` (`Payloads`). Enumerations go as `[0x00, code]`, 16-bit values
  high byte first, and `setSystemTime` as a 12-byte TAI64N label whose TAI64
  part is `2^62 + seconds`.
- **The `parse*` code tables** and the register-type → function-code switch
  (`ParseTables`), plus `getCurrentGlobalCal`. Its linear search for the
  first nonzero register is a `while` loop proved against the
  specification function `ScanModbus.NameOffset`.
- **The status bitmask decoders.** Each is a table of (bit, message)
  entries in descending bit order. A mask decodes to the messages of its set
  tabled bits, or to the "operating normally" line for mask 0
  (`StatusBitmasks`). The copy of the parameter table in
  `src/scanModbus.cpp` lacks bit 12, and `ScanModbus` models it separately.
  The device and system printers in `src/scanModbus.cpp:203-251` are
  message-for-message copies of the header's, so `StatusBitmasks` models
  both.
- **The ana::pro timestamp strings** `Str2Digit`, `timeToStringDot` and
  `timeToStringDash` (`Anapro`). The calendar fields are inputs.
- **The ModularSensors glue** (`SensorLinker`): `getSensorLocation`, and
  `addSingleMeasurementResult` as a method on class `ScanSensor` that
  updates `_millisMeasurementRequested` and `_sensorStatus` and records the
  results it hands on.

The Modbus master library is not part of this model. `Modbus.ModbusMaster`
stands in for it: a class whose slave device is a function
`(function code, start, count) -> response bytes` and whose
`*FromFrame` decoders are functions of the frame and a byte index. Its
fields are the current response frame and the logs of read and write
transactions, so every driver method states exactly which requests it sends.
Floats are 32-bit patterns. `NaN` is a predicate on the pattern, and no IEEE
arithmetic is modelled.

## Model

| member | source | states |
|---|---|---|
| ScanTypes.SpectralSourceOf | src/scanModbus.h:49-59 | each code 0..7 names exactly one spectral source, the one whose code it is |
| ScanTypes.SpectralSourceCodes | src/scanModbus.h:49-59 | the spectral sources are exactly the eight codes 0..7: codes are below 8, distinct, and `SpectralSourceOf` inverts `Code` |
| ScanTypes.DefaultSpectralSource | src/scanModbus.h:156 | the default source of `getFingerprintData` is `fingerprint`, code 0 |
| ScanTypes.SettingCodes | src/scanModbus.h:17-46 | communication mode, baud rate, parity and cleaning mode each enumerate 0, 1, 2, and distinct values have distinct codes |
| Bytes.LeFrameRoundTrip | src/scanModbus.cpp:870-875 | storing a value below `256^width` into a little-endian frame and reading it back gives the value |
| Bytes.BigEndianOfReverse | src/scanModbus.cpp:870-875 | reversing a little-endian frame yields the big-endian encoding of the same number |
| Text.NatToStringRoundTrip | src/scanAnapro.cpp:137 | `String(n)` in any base 2..16 is a digit string whose value is `n` |
| Text.NatToStringLength | src/scanAnapro.cpp:136-137 | a number renders as one digit exactly when it is below the base, and as two digits when it is below the base squared |
| Payloads.Uint16PayloadRoundTrip | src/scanModbus.cpp:766-775 | the two bytes a 16-bit setter sends are `[v div 256, v mod 256]`, and they decode big-endian back to `v` |
| Payloads.EnumPayload | src/scanModbus.cpp:612-618 | an enumeration payload is `[0x00, code]` and decodes big-endian to the code |
| Payloads.ResetSettings | src/scanModbus.cpp:180-186 | one register write of value 1 to holding register 4 |
| Payloads.SetSlaveID | src/scanModbus.cpp:190-196 | one register write of `[0x00, id]` to holding register 0 |
| Payloads.SetCommunicationMode | src/scanModbus.cpp:612-618 | one register write of the mode's code, high byte 0, to holding register 1 |
| Payloads.SetBaudRate | src/scanModbus.cpp:635-641 | one register write of the baud rate's code, high byte 0, to holding register 2 |
| Payloads.SetParity | src/scanModbus.cpp:661-667 | one register write of the parity's code, high byte 0, to holding register 3 |
| Payloads.SetCleaningMode | src/scanModbus.cpp:743-749 | one register write of the cleaning mode's code, high byte 0, to holding register 12 |
| Payloads.SetLoggingMode | src/scanModbus.cpp:846-852 | one register write of `[0x00, mode]` to holding register 23 |
| Payloads.Uint16Write | src/scanModbus.cpp:868-877 | a 16-bit setter writes one register whose big-endian value is the argument |
| Payloads.SetCleaningInterval | src/scanModbus.cpp:766-775 | one register write, to holding register 13 only, carrying the interval |
| Payloads.SetCleaningDuration | src/scanModbus.cpp:781-790 | one register write, to holding register 14 only, carrying the duration |
| Payloads.SetCleaningWait | src/scanModbus.cpp:797-806 | one register write, to holding register 15 only, carrying the wait |
| Payloads.SetMeasInterval | src/scanModbus.cpp:831-840 | one register write, to holding register 22 only, carrying the interval |
| Payloads.SetLoggingInterval | src/scanModbus.cpp:868-877 | one register write, to holding register 24 only, carrying the interval |
| Payloads.SetScanPoint | src/scanModbus.cpp:731-736 | six registers from holding register 6 carry the twelve characters unchanged |
| Payloads.SetSystemTime | src/scanModbus.cpp:813-825 | a well-formed write of six registers to holding registers 16-21 |
| Payloads.SetSystemTimeLabel | src/scanModbus.cpp:813-825 | byte 0 is 0x40, bytes 4..7 are the seconds big-endian, the 8-byte TAI64 label is `2^62 + seconds`, the nanosecond field is 0, and the seconds read back from the label are the argument |
| RegisterMap.ParameterStride | src/scanModbus.cpp:901-965 | parameter `n + 1`'s configuration fields are 120 registers above parameter `n`'s, and its status and value are 8 above; the value sits 2 above the status |
| RegisterMap.ParameterFieldsDisjoint | src/scanModbus.cpp:901-965 | the configuration fields of one parameter share no register and lie within `[120n, 120n + 27)` |
| RegisterMap.ParameterBlocksDisjoint | src/scanModbus.cpp:298-348 | fields of different parameters never share a register, whether configuration, status or value |
| RegisterMap.ParameterInRange | src/scanModbus.cpp:298-348 | every field of parameter `n` is a valid 16-bit register range exactly when `0 <= n <= 545` |
| RegisterMap.ParametersAvoidDeviceRegisters | src/scanModbus.cpp:898-905 | for parameters 1..8 no field overlaps any fixed device register |
| RegisterMap.FingerprintFieldsDisjoint | src/scanModbus.cpp:380-422 | the fields of one spectral source's block share no register and lie within `[512 + 512s, 964 + 512s)` |
| RegisterMap.FingerprintBlocksDisjoint | src/scanModbus.cpp:380-422 | the blocks of different spectral sources never share a register |
| RegisterMap.FingerprintInRange | src/scanModbus.cpp:420-422 | every fingerprint field is in 16-bit range; the last data register is `522 + 512s + 441`, at most 4547 |
| RegisterMap.PathLengthIsFingerprintPathLength | src/scanModbus.cpp:1251-1256 | `getPathLength` reads the same register as `getFingerprintPathLength(fingerprint)` |
| RegisterMap.ReferenceFieldsDisjoint | src/scanModbus.cpp:988-1080 | the fields of one reference share no register and end before its values begin |
| RegisterMap.ReferenceBlocksDisjoint | src/scanModbus.cpp:988-1087 | different references never share a register, for fields or values |
| RegisterMap.ReferenceInRange | src/scanModbus.cpp:1085-1087 | every register of reference `r` is a valid 16-bit address exactly when `r <= 118` |
| RegisterMap.ReferenceValuesOverlapFingerprintData | src/scanModbus.cpp:1085-1095 | reference 0's values overlap the input registers of the derivative fingerprint's data, while its fields are holding registers |
| ParseTables.ParseCommunicationMode | src/scanModbus.cpp:619-628 | "Unknown" exactly for codes above 2 |
| ParseTables.ParseBaudRate | src/scanModbus.cpp:642-654 | codes 0, 1, 2 give 9600, 19200, 38400; every other code gives 0, and only those do |
| ParseTables.BaudTextValues | src/scanModbus.cpp:647-652 | the texts the switch picks convert with `toInt` to 9600, 19200, 38400 and 0 |
| ParseTables.ParseParity | src/scanModbus.cpp:668-677 | "Unknown" exactly for codes above 2 |
| ParseTables.ParseRegisterType | src/scanModbus.cpp:686-696 | "Unknown" exactly for codes above 3 |
| ParseTables.ParseCleaningMode | src/scanModbus.cpp:750-759 | "Unknown" exactly for codes above 2 |
| ParseTables.ParseLoggingMode | src/scanModbus.cpp:853-860 | "Logging On" exactly for code 0, "Logging Off" for every other code |
| ParseTables.ParseParameterType | src/scanModbus.cpp:1232-1243 | "Unknown" exactly for codes above 4 |
| ParseTables.CommunicationModeReadBack | src/scanModbus.cpp:612-628 | parsing the code a mode setter sends never gives "Unknown", and distinct modes parse differently |
| ParseTables.BaudRateReadBack | src/scanModbus.cpp:635-654 | parsing the code a baud setter sends never gives 0, and distinct rates parse differently |
| ParseTables.ParityReadBack | src/scanModbus.cpp:661-677 | parsing the code a parity setter sends never gives "Unknown", and distinct parities parse differently |
| ParseTables.CleaningModeReadBack | src/scanModbus.cpp:743-759 | parsing the code a cleaning setter sends never gives "Unknown", and distinct modes parse differently |
| ParseTables.LoggingModeReadBack | src/scanModbus.cpp:846-860 | the logging mode sent parses as "Logging On" exactly when it is 0 |
| ParseTables.RegisterTypeReadCode | src/scanModbus.cpp:704-711 | pointer types 0, 1, 2 map to read codes 0x03, 0x04, 0x02; the code is 0 exactly for types outside 0..3 |
| ParseTables.CoilPointerReadsWithWriteCode | src/scanModbus.cpp:704-711 | type 3 is "Coil", and the switch maps it to 0x05, which is no read function code |
| ParseTables.IntendedRegisterTypeReadCode | src/scanModbus.cpp:690-693 | the corrected switch yields a read function code exactly for types 0..3 and agrees with the driver on types 0..2 |
| ParseTables.IntendedReadCodesDistinct | src/scanModbus.cpp:690-693 | the corrected switch gives distinct register types distinct read codes |
| StatusBitmasks.FiredInOrder | lib/scanStatusBitmasks.h:1-27 | the messages emitted come from the table, in table (descending-bit) order, and only for set bits |
| StatusBitmasks.FiredMember | lib/scanStatusBitmasks.h:4-23 | a table entry's message appears exactly when its bit is set, whatever the other bits |
| StatusBitmasks.FiredZero | lib/scanStatusBitmasks.h:24-26 | mask 0 fires no tabled message |
| StatusBitmasks.DecodeZero | lib/scanStatusBitmasks.h:24-26 | mask 0 decodes to exactly the one "operating normally" line |
| StatusBitmasks.FiredLength | lib/scanStatusBitmasks.h:1-27 | the number of messages equals the number of set bits that have a table entry |
| StatusBitmasks.FiredMonotone | lib/scanStatusBitmasks.h:4-23 | setting extra bits never removes a message |
| StatusBitmasks.FiredIgnoresUntabled | lib/scanStatusBitmasks.h:1-27 | two masks that agree on the tabled bits fire the same messages |
| StatusBitmasks.DecodeFacts | lib/scanStatusBitmasks.h:1-27 | for any table: mask 0 gives the normal line, otherwise one line per set tabled bit, and no line exactly when a nonzero mask has no tabled bit |
| StatusBitmasks.DeviceTable | lib/scanStatusBitmasks.h:1-27 | the device entries have distinct bits in descending order |
| StatusBitmasks.SystemTable | lib/scanStatusBitmasks.h:28-45 | the system entries have distinct bits in descending order |
| StatusBitmasks.ParameterTable | lib/scanStatusBitmasks.h:46-84 | the parameter entries have distinct bits in descending order |
| StatusBitmasks.SpecTable | lib/scanStatusBitmasks.h:85-138 | the spectrometer entries have distinct bits in descending order |
| StatusBitmasks.PrintDeviceStatus | lib/scanStatusBitmasks.h:1-27 | mask 0 gives the normal line; otherwise one line per set tabled bit; nothing at all exactly for a nonzero mask outside bits 15, 14, 13, 3, 2, 1, 0 |
| StatusBitmasks.PrintSystemStatus | lib/scanStatusBitmasks.h:28-45 | mask 0 gives the normal line; nothing at all exactly for a nonzero mask outside bits 6, 5, 1, 0 |
| StatusBitmasks.PrintParameterStatus | lib/scanStatusBitmasks.h:46-84 | mask 0 gives the normal line; nothing at all exactly for a nonzero mask outside bits 15-11 and 5-0 |
| StatusBitmasks.PrintSpecStatus | lib/scanStatusBitmasks.h:85-138 | mask 0 gives the normal line, otherwise one line per set bit, so never nothing |
| StatusBitmasks.DeviceSilent | src/scanModbus.cpp:203-229 | a mask fires no device message exactly when it has none of bits 15, 14, 13, 3, 2, 1, 0 |
| StatusBitmasks.DeviceIgnoresUntabled | src/scanModbus.cpp:203-229 | device bits 4-12 are ignored; bit 10 alone prints nothing, not the normal line |
| StatusBitmasks.SystemSilent | src/scanModbus.cpp:234-251 | a mask fires no system message exactly when it has none of bits 6, 5, 1, 0 |
| StatusBitmasks.ParameterSilent | lib/scanStatusBitmasks.h:46-84 | a mask fires no parameter message exactly when it has none of bits 15-11 and 5-0 |
| StatusBitmasks.SpecNeverSilent | lib/scanStatusBitmasks.h:85-138 | every nonzero mask fires at least one spectrometer message |
| ScanModbus.CppParameterTable | src/scanModbus.cpp:304-339 | this file's parameter entries have distinct bits in descending order |
| ScanModbus.PrintParameterStatus | src/scanModbus.cpp:304-339 | mask 0 gives the normal line; nothing at all exactly for a nonzero mask outside bits 15-13, 11 and 5-0 |
| ScanModbus.CppTableIsHeaderWithoutBit12 | src/scanModbus.cpp:304-339 | this file's table is the header's table with the bit-12 entry removed |
| ScanModbus.CppParameterDropsBit12 | src/scanModbus.cpp:304-339 | for every mask, this file's printer emits the header printer's messages except the bit-12 one |
| ScanModbus.CppParameterSilent | src/scanModbus.cpp:304-339 | no message fires exactly when the mask has none of bits 15-13, 11, 5-0 |
| ScanModbus.Bit12Alone | src/scanModbus.cpp:304-339 | for mask 0x1000 this file's printer prints nothing, while the header's prints the data-validation message |
| ScanModbus.PointerReadIsPrivateConfig | src/scanModbus.cpp:679-685 | the private-configuration pointer and its type are read from holding register 5 |
| ScanModbus.NameOffset | src/scanModbus.cpp:714-721 | the offset is the first probe in 0..255 whose register is nonzero, or 255 when none of 0..254 is |
| ScanModbus.Scan.Begin | src/scanModbus.cpp:15-19 | `begin` stores the slave ID and the Modbus master |
| ScanModbus.Scan.GetSystemStatus | src/scanModbus.h:119 | the system status is always 0 |
| ScanModbus.Scan.SetSlaveID | src/scanModbus.cpp:190-196 | sends exactly the slave-ID write and reports its acknowledgement; the stored slave ID, which `getSlaveID` returns, is unchanged |
| ScanModbus.Scan.GetParameterCount | src/scanModbus.cpp:1223-1224 | one read of input register 22; the result is its value |
| ScanModbus.Scan.GetParameterValue | src/scanModbus.cpp:343-348 | one two-register read of input register `120 + 8n + 2`; the result is the float decoded after the header |
| ScanModbus.Scan.FetchBatch | src/scanModbus.cpp:430-434 | one batch: one read request, and the array equals the old array with the batch's floats stored |
| ScanModbus.Scan.GetFingerprintData | src/scanModbus.cpp:420-457 | four reads at `+0, +124, +248, +372` and then the status register; element `j < 221` is float `j mod 62` of batch `j div 62`; later elements are untouched; the result is the fingerprint status register |
| ScanModbus.Scan.GetReferenceValues | src/scanModbus.cpp:1085-1128 | five reads then the status register; elements below 186 come from batch `j div 62`, elements 186..220 from the fifth batch, later elements are untouched; true exactly when the register before the values is nonzero |
| ScanModbus.Scan.ReadCalPointer | src/scanModbus.cpp:702-711 | reads the pointer and its type from register 5 and maps the type to a function code |
| ScanModbus.Scan.FindNameRegister | src/scanModbus.cpp:714-721 | probes registers `regNum, regNum + 1, …` one at a time and stops at `regNum + NameOffset`, issuing exactly those probes |
| ScanModbus.Scan.GetCurrentGlobalCal | src/scanModbus.cpp:700-723 | the name and the full request sequence are those of the specification `GlobalCalName` / `GlobalCalReads` |
| ScanModbus.GlobalCalDone | src/scanModbus.cpp:700-723 | the pointer read, the probes and the 12-character read together are the global-calibration lookup |
| SpectralFetch.Requests | src/scanModbus.cpp:430-448 | the read requests of a plan: one per batch, in order, at `startingReg + offset` |
| SpectralFetch.FillAt | src/scanModbus.cpp:429-452 | each array element holds the float of the last batch that writes it, or its old value |
| SpectralFetch.FingerprintPlanShape | src/scanModbus.cpp:429-448 | four contiguous batches of 124, 124, 124, 70 registers covering all 442 data registers; each batch holds twice as many registers as floats |
| SpectralFetch.FingerprintWritesOnce | src/scanModbus.cpp:429-452 | each index below 221 is written by exactly one batch, `j div 62`; no other index is written |
| SpectralFetch.FingerprintFill | src/scanModbus.cpp:429-452 | the filled array, element by element |
| SpectralFetch.FingerprintDecodesInFrame | src/scanModbus.cpp:431-434 | every decode of a fingerprint batch stays inside the response frame |
| SpectralFetch.ReferencePlanShape | src/scanModbus.cpp:1094-1119 | five contiguous batches covering the 512 value registers |
| SpectralFetch.ReferenceWrites | src/scanModbus.cpp:1112-1123 | indices below 186 are written once; indices 186..220 twice, last by the fifth batch; indices from 221 never |
| SpectralFetch.ReferenceFill | src/scanModbus.cpp:1094-1123 | the filled array, element by element |
| SpectralFetch.ReferenceLastBatchOverruns | src/scanModbus.cpp:1118-1123 | a decode stays inside its frame exactly when it is in batches 1-4 or one of the fifth batch's first 15 floats |
| SpectralFetch.AsWrittenDecodesOverlap | src/scanModbus.cpp:433 | consecutive decodes at `3 + 2i` overlap, and a full batch's last decode ends at byte 129 of a 251-byte frame |
| SpectralFetch.IntendedDecodeIndex | src/scanModbus.cpp:431-434 | float `i` starts at the byte of register `2i` |
| SpectralFetch.IntendedDecodesTileFrame | src/scanModbus.cpp:431-434 | corrected decodes are disjoint, the first starts after the header and the last ends at the end of the frame |
| SpectralFetch.IntendedFingerprintDecodes | src/scanModbus.cpp:429-452 | with the corrected index, every fingerprint batch decodes exactly its own frame |
| SpectralFetch.IntendedReferencePlan | src/scanModbus.cpp:1082-1123 | five batches, as the driver's |
| SpectralFetch.IntendedReferenceCoversOnce | src/scanModbus.cpp:1082-1123 | the corrected plan writes each of the 256 values exactly once, from batch `j div 62` |
| SpectralFetch.IntendedReferenceSameRequests | src/scanModbus.cpp:1094-1119 | the corrected plan sends the same requests as the driver |
| Anapro.Str2Digit | src/scanAnapro.cpp:133-139 | starts with "0" exactly when the value is below 10, negatives included; for 0..99 it is two decimal digits that read back as the value |
| Anapro.PaddedDecimal | src/scanAnapro.cpp:133-139 | the padded decimal rendering has the properties `Str2Digit` promises |
| Anapro.DotLayout | src/scanAnapro.cpp:142-158 | with two-digit fields: year, then `.` `.` two spaces `:` `:` at fixed offsets, length `len(year) + 16` |
| Anapro.DotFields | src/scanAnapro.cpp:142-158 | the five two-digit fields read back as month, day, hour, minute, second |
| Anapro.DashLayout | src/scanAnapro.cpp:161-177 | with two-digit fields: year, then `-` `-` `_` `-` `-` at fixed offsets, length `len(year) + 15` |
| Anapro.DashFields | src/scanAnapro.cpp:161-177 | the five two-digit fields read back as month, day, hour, minute, second |
| Anapro.DotDashSameFields | src/scanAnapro.cpp:142-177 | both formats carry the same year and the same digit fields |
| Anapro.DashHasNoColonOrSpace | src/scanAnapro.cpp:161-177 | the dash format contains no ':' and no ' ' |
| SensorLinker.SensorLocation | src/scanModularSensorLinker.cpp:36-42 | "modbus_0x" followed by exactly two hex digits whose value is the address |
| SensorLinker.PaddedHex | src/scanModularSensorLinker.cpp:39-40 | the padded hex rendering of a byte is two digits with the byte's value |
| SensorLinker.LocationsDistinct | src/scanModularSensorLinker.cpp:36-42 | distinct addresses give distinct locations |
| SensorLinker.NaNFields | src/scanModularSensorLinker.cpp:90 | a pattern is NaN exactly when its exponent is all ones and its mantissa nonzero |
| SensorLinker.Cleaned | src/scanModularSensorLinker.cpp:88-90 | the value handed on is never NaN; it is the read value exactly when that is not NaN, and -9999 otherwise |
| SensorLinker.MissingValueIsNotNaN | src/scanModularSensorLinker.cpp:74 | the -9999 sentinel is not NaN and is handed on unchanged |
| SensorLinker.StatusAfterMeasurement | src/scanModularSensorLinker.cpp:103-106 | bit 5 cleared, bit 6 set, every other bit unchanged |
| SensorLinker.StatusAfterMeasurementIdempotent | src/scanModularSensorLinker.cpp:103-106 | updating the status twice is the same as once |
| SensorLinker.AsWrittenValuesOverrun | src/scanModularSensorLinker.cpp:74-96 | the loop's stores stay inside the eight slots exactly when the count is at most 8, so a reported count of 10 (the header's `SCAN_NUM_VARIABLES`) overruns |
| SensorLinker.ScanSensor.constructor | src/scanModularSensorLinker.cpp:13-21 | stores the Scan driver and address; no measurement pending, no results |
| SensorLinker.ScanSensor.AddSingleMeasurementResult | src/scanModularSensorLinker.cpp:71-110 | returns true and clears the request time; updates the status byte; with no measurement pending it reads nothing and adds nothing, otherwise it reads the count and each value and hands on `Results` |
| SensorLinker.ScanSensor.HandOnParameterValues | src/scanModularSensorLinker.cpp:76-97 | reads the parameter count, then hands on value `i + 1`, cleaned, as variable `i` for every reported parameter |
| SensorLinker.ScanSensor.HandOnEach | src/scanModularSensorLinker.cpp:85-97 | the loop hands on `Results(nparms)` and issues exactly the value reads of parameters `1..nparms` |
| SensorLinker.ScanSensor.HandOnParameterValue | src/scanModularSensorLinker.cpp:86-96 | slot `i` takes parameter `i + 1`'s value, NaN replaced by -9999; no other slot changes; the pair `(i, value)` is handed on |

## Left out

- Serial transport, CRC and the `*FromFrame` decoders belong to the Modbus master library, which is not part of this model. The device and the decoders are function-valued fields of `Modbus.ModbusMaster`.
- `Modbus.ModbusMaster.GetRegisters`: reads never fail. The library's `getRegisters` returns a success flag, and the model has none. A timed-out or exception reply is not modelled; the driver's core ignores the flag, so the modelled results are those of successful reads.
- `Modbus.ModbusMaster.respond`: the device is stateless. Its response is a fixed function of the request, so a register that changes between two reads is not modelled. This covers the two reads of register 5 in `getCurrentGlobalCal`, and reads sent after `setSlaveID` has moved the device to a new address.
- `Modbus.ModbusMaster.float32`: a decode past the end of the response frame is an abstract function of that frame alone. The library reads whatever its buffer holds beyond the response. `SpectralFetch.ReferenceLastBatchOverruns` shows that floats 15-34 of the reference fetcher's fifth batch are such decodes.
- `ScanModbus.Scan.SetSlaveID`, `GetFingerprintData`, `GetReferenceValues` and `GetCurrentGlobalCal` do not state what `modbus.frame` holds afterwards. The frame is scratch space that the next read overwrites, and every value the driver returns is stated through `respond` instead.
- Stream printing is left out: `printSetup`, `printTime`, `printParameterData`, `printFingerprintData`, `printReferenceData`, the header printers and the ana::pro row printers. The status printers are modelled as the list of lines they would print.
- `wakeSpec` is left out: it is serial retry probing.
- Float arithmetic is left out. This covers `getModbusVersion`, `getHWVersion`, `getSWVersion`, `getPathLength`'s division and the wavelength loop of the fingerprint headers. Floats are 32-bit patterns.
- TimeLib's `year`…`second` are external. `Anapro.CalendarTime` takes their results as inputs, and `time_t` is not modelled.
- The ModularSensors base classes are left out: `setup`, `wake`, `verifyAndAddMeasurementResult` and `MS_DBG`. Handing on a result is recorded as a (variable, value) pair in `ScanSensor.results`. The debug-only reads of `getParameterName`/`getParameterUnits` inside `MS_DBG` are not modelled.
- The single-register getters (`getCommunicationMode` … `getIndexLogResult`, the parameter, fingerprint and reference field getters, `getDeviceStatus`, `getParameterStatus`) are modelled as entries of the register map (`RegisterMap.DeviceRead`, `ParameterConfigRead`, `FingerprintRead`, `ReferenceRead`, …). A method is written only for `getParameterCount` and `getParameterValue`, which the sensor glue calls.
- The `set*` methods are modelled by the write request they send (`Payloads`). Only `setSlaveID` is also a method on `Scan`, because `getSlaveID` is stated against it. All of them return `setRegisters`' acknowledgement unchanged.
- `Anapro.TimeToStringDot` and `Anapro.TimeToStringDash` carry no `ensures` of their own. Their layout and fields are stated by `DotLayout`, `DotFields`, `DashLayout`, `DashFields`, `DotDashSameFields` and `DashHasNoColonOrSpace`.
- `SensorLinker.ScanSensor.HandOnEach`: the loop counter is unbounded. The source counts with a `uint8_t`, so a reported count of 256 or more would wrap the counter and never end the loop.
- `ParseTables.ParseCommunicationMode`, `ParseParity`, `ParseRegisterType`, `ParseCleaningMode`, `ParseParameterType`: the contract states only which codes are "Unknown". The text for each known code is the function body.
- The declaration-only headers `src/scanAnapro.h` and `src/scanModularSensorLinker.h` are not modelled beyond the constant `SCAN_NUM_VARIABLES`.

## Findings

`GetFingerprintData`, `GetReferenceValues` and `GetCurrentGlobalCal` follow the code as written. Beside each, the corrected definition is proved to have the property the code evidently intends. The sensor glue uses the corrected value array.

The comment at src/scanModbus.cpp:1082-1084 asks for space for 256 values, and lines 1089-1091 count 256 two-register values. The code stores 221, and the model follows the code.

| source | as written | input that shows it | evidently intended | confidence | as-written member | corrected member |
|---|---|---|---|---|---|---|
| src/scanModbus.cpp:433 | float `i` of a batch is decoded at byte `3 + 2i`, so consecutive 4-byte floats overlap by two bytes, and the last float of a 124-register batch ends at byte 129 of a 251-byte frame | `i = 0` decodes bytes 3..6 and `i = 1` decodes bytes 5..8 | float `i` at byte `3 + 4i`, the first byte of register `2i` (the same holds at lines 439, 445, 451, 1098, 1104, 1110, 1116, 1122) | high; not executed | SpectralFetch.AsWrittenDecodesOverlap | SpectralFetch.IntendedDecodesTileFrame |
| src/scanModbus.cpp:1112-1123 | the fourth batch reads 62 floats but stores only 35 (indices 186..220); the fifth reads 8 floats but decodes 35 and stores them over 186..220 again; indices 221..255 are never written | any reference number: index 200 is written twice and index 221 never | fourth batch fills 186..247, fifth fills 248..255, all 256 values once, as lines 1082-1084 describe | high; not executed | SpectralFetch.ReferenceWrites | SpectralFetch.IntendedReferenceCoversOnce |
| src/scanModbus.cpp:709 | pointer type 3 (coil) is mapped to function code 0x05, Write Single Coil, which is then used in read requests at lines 719 and 722 | private-configuration pointer type 3 | 0x01, Read Coils, as the comment at line 693 says | medium; not executed | ParseTables.CoilPointerReadsWithWriteCode | ParseTables.IntendedRegisterTypeReadCode |
| src/scanModularSensorLinker.cpp:74 | `values` has 8 slots, but the loop at lines 85-96 stores to `values[i]` for every `i` below the count the probe reports at line 79 | a probe reporting more than 8 parameters, for example 10: stores to `values[8]` and `values[9]` | one slot per reported parameter | high; not executed | SensorLinker.AsWrittenValuesOverrun | SensorLinker.ScanSensor.HandOnParameterValues |
