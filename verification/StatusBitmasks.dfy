/** The status printers of the bitmask header: for a 16-bit status word,
    one fixed message per set bit that the category's table lists, tested
    from the highest listed bit down, and the category's "operating
    normally" message when the whole word is zero.  Each printer is a
    table of (bit, message) entries run through one decoder; the printed
    lines are the sequence the decoder returns. */
module StatusBitmasks {

  datatype Entry = Entry(bit: nat, message: string)

  /** Every bit is a bit of a 16-bit word and the bits strictly descend,
      which is the order the printers test them in. */
  predicate WellFormed(table: seq<Entry>)
  {
    (forall i :: 0 <= i < |table| ==> table[i].bit < 16) &&
    (forall i, j :: 0 <= i < j < |table| ==> table[i].bit > table[j].bit)
  }

  /** The word with only bit `bit` set: the constants the printers test
      against (32768, 16384, ..., 2, 1). */
  function Bit(bit: nat): bv16
    requires bit < 16
  {
    match bit
    case 0 => 0x0001 case 1 => 0x0002 case 2 => 0x0004 case 3 => 0x0008
    case 4 => 0x0010 case 5 => 0x0020 case 6 => 0x0040 case 7 => 0x0080
    case 8 => 0x0100 case 9 => 0x0200 case 10 => 0x0400 case 11 => 0x0800
    case 12 => 0x1000 case 13 => 0x2000 case 14 => 0x4000 case _ => 0x8000
  }

  /** The printers' test `(bitmask & k) == k` with `k` the constant of one
      bit, which for a one-bit constant is `bitmask & k != 0`. */
  predicate BitSet(mask: bv16, bit: nat)
    requires bit < 16
  {
    mask & Bit(bit) != 0
  }

  /** The bits a table lists. */
  function Bits(table: seq<Entry>): set<nat>
  {
    set i | 0 <= i < |table| :: table[i].bit
  }

  /** The set bits of `mask` that the table has a message for. */
  function TabledSetBits(table: seq<Entry>, mask: bv16): set<nat>
  {
    set b | b in Bits(table) && b < 16 && BitSet(mask, b)
  }

  /** The entries whose test succeeds, in the order they are tested. */
  function Fired(table: seq<Entry>, mask: bv16): seq<Entry>
    requires WellFormed(table)
  {
    if table == [] then []
    else (if BitSet(mask, table[0].bit) then [table[0]] else []) + Fired(table[1..], mask)
  }

  function Messages(entries: seq<Entry>): (lines: seq<string>)
    ensures |lines| == |entries|
    ensures forall i :: 0 <= i < |entries| ==> lines[i] == entries[i].message
  {
    seq(|entries|, i requires 0 <= i < |entries| => entries[i].message)
  }

  /** One printer: the messages of the fired entries, then the normal
      message for a zero word. */
  function Decode(table: seq<Entry>, normal: string, mask: bv16): seq<string>
    requires WellFormed(table)
  {
    Messages(Fired(table, mask)) + (if mask == 0 then [normal] else [])
  }

  // ---------------------------------------------------------------------
  // Word-level facts
  // ---------------------------------------------------------------------

  /** Every bit set in `mask` is set in `more`. */
  predicate SubMask(mask: bv16, more: bv16)
  {
    forall b: nat :: b < 16 && BitSet(mask, b) ==> BitSet(more, b)
  }

  // ---------------------------------------------------------------------
  // Properties of every printer
  // ---------------------------------------------------------------------

  lemma WellFormedTail(table: seq<Entry>)
    requires WellFormed(table) && table != []
    ensures WellFormed(table[1..])
    ensures table[0].bit !in Bits(table[1..])
    ensures Bits(table) == {table[0].bit} + Bits(table[1..])
  {
    var t := table[1..];
    forall b | b in Bits(table) ensures b == table[0].bit || b in Bits(t) {
      var i :| 0 <= i < |table| && table[i].bit == b;
      if i > 0 { assert t[i - 1].bit == b; }
    }
    forall b | b in Bits(t) ensures b in Bits(table) && b < table[0].bit {
      var i :| 0 <= i < |t| && t[i].bit == b;
      assert table[i + 1].bit == b;
    }
  }

  /** The fired entries are table entries with their bit set, listed from
      the highest bit down. */
  lemma {:induction false} FiredInOrder(table: seq<Entry>, mask: bv16)
    requires WellFormed(table)
    ensures WellFormed(Fired(table, mask))
    ensures forall e :: e in Fired(table, mask) ==> e in table && BitSet(mask, e.bit)
  {
    if table != [] {
      var t := table[1..];
      WellFormedTail(table);
      FiredInOrder(t, mask);
      var f := Fired(t, mask);
      forall e | e in f ensures e in table && e.bit < table[0].bit {
        var i :| 0 <= i < |t| && t[i] == e;
        assert table[i + 1] == e;
      }
      if BitSet(mask, table[0].bit) {
        WellFormedCons(table[0], f);
        assert Fired(table, mask) == [table[0]] + f;
      } else {
        assert Fired(table, mask) == f;
      }
    }
  }

  lemma WellFormedCons(e: Entry, f: seq<Entry>)
    requires WellFormed(f) && e.bit < 16
    requires forall x :: x in f ==> x.bit < e.bit
    ensures WellFormed([e] + f)
  {
    var g := [e] + f;
    forall i | 0 <= i < |g| ensures g[i].bit < 16 {
      if i > 0 { assert g[i] == f[i - 1]; }
    }
    forall i, j | 0 <= i < j < |g| ensures g[i].bit > g[j].bit {
      assert g[j] == f[j - 1] && g[j] in f;
      if i > 0 { assert g[i] == f[i - 1]; }
    }
  }

  /** Strictly descending neighbours make a well-formed table. */
  lemma {:induction false} DescendingWellFormed(t: seq<Entry>)
    requires forall i :: 0 <= i < |t| ==> t[i].bit < 16
    requires forall i :: 0 < i < |t| ==> t[i - 1].bit > t[i].bit
    ensures WellFormed(t)
  {
    if t != [] {
      var r := t[1..];
      forall i | 0 < i < |r| ensures r[i - 1].bit > r[i].bit {
        assert r[i - 1] == t[i] && r[i] == t[i + 1];
      }
      DescendingWellFormed(r);
      forall x | x in r ensures x.bit < t[0].bit {
        var j :| 0 <= j < |r| && r[j] == x;
        assert r[0] == t[1];
      }
      WellFormedCons(t[0], r);
      assert [t[0]] + r == t;
    }
  }

  /** An entry fires exactly when its bit is set. */
  lemma {:induction false} FiredMember(table: seq<Entry>, mask: bv16, i: nat)
    requires WellFormed(table) && i < |table|
    ensures table[i] in Fired(table, mask) <==> BitSet(mask, table[i].bit)
  {
    FiredInOrder(table, mask);
    if i > 0 {
      var t := table[1..];
      WellFormedTail(table);
      assert t[i - 1] == table[i];
      FiredMember(t, mask, i - 1);
    }
  }

  /** A zero word fires no entry. */
  lemma {:induction false} FiredZero(table: seq<Entry>)
    requires WellFormed(table)
    ensures Fired(table, 0) == []
  {
    if table != [] {
      WellFormedTail(table);
      FiredZero(table[1..]);
    }
  }

  /** The zero word prints exactly the normal message. */
  lemma DecodeZero(table: seq<Entry>, normal: string)
    requires WellFormed(table)
    ensures Decode(table, normal, 0) == [normal]
  {
    FiredZero(table);
  }

  /** One message per set bit that has a table entry. */
  lemma {:induction false} FiredLength(table: seq<Entry>, mask: bv16)
    requires WellFormed(table)
    ensures |Fired(table, mask)| == |TabledSetBits(table, mask)|
  {
    if table == [] {
      assert TabledSetBits(table, mask) == {};
    } else {
      var t := table[1..];
      WellFormedTail(table);
      FiredLength(t, mask);
      TabledSetBitsTail(table, mask);
    }
  }

  lemma TabledSetBitsTail(table: seq<Entry>, mask: bv16)
    requires WellFormed(table) && table != []
    ensures table[0].bit !in TabledSetBits(table[1..], mask)
    ensures TabledSetBits(table, mask)
         == (if BitSet(mask, table[0].bit) then {table[0].bit} else {}) + TabledSetBits(table[1..], mask)
  {
    WellFormedTail(table);
    var b := table[0].bit;
    var whole, rest := TabledSetBits(table, mask), TabledSetBits(table[1..], mask);
    var head: set<nat> := if BitSet(mask, b) then {b} else {};
    forall c | c in whole ensures c in head + rest {
      assert c in Bits(table) && c < 16 && BitSet(mask, c);
      if c != b { assert c in Bits(table[1..]); }
    }
    forall c | c in head + rest ensures c in whole {
      if c in rest { assert c in Bits(table[1..]) && c in Bits(table); }
    }
  }

  /** Setting more bits never removes a message: whatever fires for a word
      fires for every word that has at least its bits set. */
  lemma {:induction false} FiredMonotone(table: seq<Entry>, mask: bv16, more: bv16)
    requires WellFormed(table) && SubMask(mask, more)
    ensures forall e :: e in Fired(table, mask) ==> e in Fired(table, more)
  {
    if table != [] {
      WellFormedTail(table);
      FiredMonotone(table[1..], mask, more);
    }
  }

  /** A bit the table does not list changes nothing. */
  lemma {:induction false} FiredIgnoresUntabled(table: seq<Entry>, mask: bv16, other: bv16)
    requires WellFormed(table)
    requires forall i :: 0 <= i < |table| ==> (BitSet(mask, table[i].bit) <==> BitSet(other, table[i].bit))
    ensures Fired(table, mask) == Fired(table, other)
  {
    if table != [] {
      var t := table[1..];
      WellFormedTail(table);
      forall i | 0 <= i < |t| ensures BitSet(mask, t[i].bit) <==> BitSet(other, t[i].bit) {
        assert t[i] == table[i + 1];
      }
      FiredIgnoresUntabled(t, mask, other);
    }
  }

  /** No tabled bit is set exactly when no entry's test succeeds. */
  lemma NoTabledBits(table: seq<Entry>, mask: bv16)
    requires WellFormed(table)
    ensures TabledSetBits(table, mask) == {} <==> forall i :: 0 <= i < |table| ==> !BitSet(mask, table[i].bit)
  {
    if exists i :: 0 <= i < |table| && BitSet(mask, table[i].bit) {
      var i :| 0 <= i < |table| && BitSet(mask, table[i].bit);
      assert table[i].bit in TabledSetBits(table, mask);
    }
  }

  /** The facts every printer shares: zero prints only the normal line,
      otherwise one line per tabled set bit, and nothing at all exactly for
      a non-zero word none of whose tabled bits is set. */
  lemma DecodeFacts(table: seq<Entry>, normal: string, bitmask: bv16)
    requires WellFormed(table)
    ensures var lines := Decode(table, normal, bitmask);
      (bitmask == 0 ==> lines == [normal]) &&
      |lines| == (if bitmask == 0 then 1 else |TabledSetBits(table, bitmask)|) &&
      (lines == [] <==> bitmask != 0 && TabledSetBits(table, bitmask) == {})
  {
    FiredLength(table, bitmask);
    if bitmask == 0 {
      DecodeZero(table, normal);
    }
  }

  // ---------------------------------------------------------------------
  // The four tables
  // ---------------------------------------------------------------------

  const DeviceNormal: string := "Device is operating normally"

  const DeviceBit15: string := "Device maintenance required"
  const DeviceBit14: string := "Device cleaning required"
  const DeviceBit13: string := "Device busy"
  const DeviceBit3: string := "Data logger error, no readings can be stored because datalogger is full"
  const DeviceBit2: string := "Missing or devective component detected"
  const DeviceBit1: string := "Probe misuse, operation outside the specified temperature range"
  const DeviceBit0: string := "s::can device reports error during internal check"

  /** `printDeviceStatus`: bits 15, 14, 13, 3, 2, 1, 0. */
  function DeviceTable(): (t: seq<Entry>)
    ensures WellFormed(t)
  {
    var t := [
      Entry(15, DeviceBit15),
      Entry(14, DeviceBit14),
      Entry(13, DeviceBit13),
      Entry(3, DeviceBit3),
      Entry(2, DeviceBit2),
      Entry(1, DeviceBit1),
      Entry(0, DeviceBit0)];
    DescendingWellFormed(t);
    t
  }

  const SystemNormal: string := "System is operating normally"

  const SystemBit6: string := "mA signal is outside of the allowed input range"
  const SystemBit5: string := "Validation results are not available"
  const SystemBit1: string := "Invalid probe/sensor; serial number of probe/sensor is different"
  const SystemBit0: string := "No communication between probe/sensor and controller"

  /** `printSystemStatus`: bits 6, 5, 1, 0. */
  function SystemTable(): (t: seq<Entry>)
    ensures WellFormed(t)
  {
    var t := [
      Entry(6, SystemBit6),
      Entry(5, SystemBit5),
      Entry(1, SystemBit1),
      Entry(0, SystemBit0)];
    DescendingWellFormed(t);
    t
  }

  const ParameterNormal: string := "Parameter is operating normally"

  const ParameterBit15: string := "Parameter reading out of measuring range"
  const ParameterBit14: string := "Status of alarm Parameter is 'WARNING'"
  const ParameterBit13: string := "Status of alarm Parameter is 'ALARM'"
  const ParameterBit12: string := "Data is marked as non fully trustworthy by data validation algorithm"
  const ParameterBit11: string := "Maintenance necessary"
  const ParameterBit5: string := "Parameter not ready or not available"
  const ParameterBit4: string := "Incorrect calibration, at least one calibration coefficient invalid"
  const ParameterBit3: string := "Parameter error, the sensor is outside of the medium or in incorrect medium"
  const ParameterBit2: string := "Parameter error, calibration error"
  const ParameterBit1: string := "Parameter error, hardware error"
  const ParameterBit0: string := "General parameter error, at least one internal parameter check failed"

  /** `printParameterStatus`: bits 15 to 11 and 5 to 0. */
  function ParameterTable(): (t: seq<Entry>)
    ensures WellFormed(t)
  {
    var t := [
      Entry(15, ParameterBit15),
      Entry(14, ParameterBit14),
      Entry(13, ParameterBit13),
      Entry(12, ParameterBit12),
      Entry(11, ParameterBit11),
      Entry(5, ParameterBit5),
      Entry(4, ParameterBit4),
      Entry(3, ParameterBit3),
      Entry(2, ParameterBit2),
      Entry(1, ParameterBit1),
      Entry(0, ParameterBit0)];
    DescendingWellFormed(t);
    t
  }

  const SpecNormal: string := "Spectro::lyzer is operating normally"

  const SpecBit15: string := "Probe compensation failure - above upper limit"
  const SpecBit14: string := "Probe compensation failure - below lower limit"
  const SpecBit13: string := "Probe compensation failure - overflow"
  const SpecBit12: string := "Probe energy failure - overflow"
  const SpecBit11: string := "Probe compensation failure - standard deviation too high"
  const SpecBit10: string := "Probe energy failure - dark noise too high"
  const SpecBit9: string := "PROBE MISUSE - Medium temperature too high"
  const SpecBit8: string := "PROBE MISUSE - Medium temperature too low"
  const SpecBit7: string := "Internal humidity is too high"
  const SpecBit6: string := "Internal humidity is too low"
  const SpecBit5: string := "PROBE MISUSE - Voltage too high"
  const SpecBit4: string := "PROBE MISUSE - Voltage too low"
  const SpecBit3: string := "PROBE MISUSE - Medium pressure too high"
  const SpecBit2: string := "PROBE MISUSE - Medium pressure too low"
  const SpecBit1: string := "Data logger is full.  Measurements on the probe are stopped"
  const SpecBit0: string := "Actual used reference measurement is invalid"

  /** `printSpecStatus`: all sixteen bits. */
  function SpecTable(): (t: seq<Entry>)
    ensures WellFormed(t)
  {
    var t := [
      Entry(15, SpecBit15),
      Entry(14, SpecBit14),
      Entry(13, SpecBit13),
      Entry(12, SpecBit12),
      Entry(11, SpecBit11),
      Entry(10, SpecBit10),
      Entry(9, SpecBit9),
      Entry(8, SpecBit8),
      Entry(7, SpecBit7),
      Entry(6, SpecBit6),
      Entry(5, SpecBit5),
      Entry(4, SpecBit4),
      Entry(3, SpecBit3),
      Entry(2, SpecBit2),
      Entry(1, SpecBit1),
      Entry(0, SpecBit0)];
    DescendingWellFormed(t);
    t
  }

  /** `printDeviceStatus` */
  function PrintDeviceStatus(bitmask: bv16): (lines: seq<string>)
    ensures bitmask == 0 ==> lines == [DeviceNormal]
    ensures |lines| == (if bitmask == 0 then 1 else |TabledSetBits(DeviceTable(), bitmask)|)
    ensures lines == [] <==> bitmask != 0 && bitmask & 0xE00F == 0
  {
    DecodeFacts(DeviceTable(), DeviceNormal, bitmask);
    DeviceSilent(bitmask);
    Decode(DeviceTable(), DeviceNormal, bitmask)
  }

  /** `printSystemStatus` */
  function PrintSystemStatus(bitmask: bv16): (lines: seq<string>)
    ensures bitmask == 0 ==> lines == [SystemNormal]
    ensures |lines| == (if bitmask == 0 then 1 else |TabledSetBits(SystemTable(), bitmask)|)
    ensures lines == [] <==> bitmask != 0 && bitmask & 0x0063 == 0
  {
    DecodeFacts(SystemTable(), SystemNormal, bitmask);
    SystemSilent(bitmask);
    Decode(SystemTable(), SystemNormal, bitmask)
  }

  /** `printParameterStatus` */
  function PrintParameterStatus(bitmask: bv16): (lines: seq<string>)
    ensures bitmask == 0 ==> lines == [ParameterNormal]
    ensures |lines| == (if bitmask == 0 then 1 else |TabledSetBits(ParameterTable(), bitmask)|)
    ensures lines == [] <==> bitmask != 0 && bitmask & 0xF83F == 0
  {
    DecodeFacts(ParameterTable(), ParameterNormal, bitmask);
    ParameterSilent(bitmask);
    Decode(ParameterTable(), ParameterNormal, bitmask)
  }

  /** `printSpecStatus`: every non-zero word prints at least one message. */
  function PrintSpecStatus(bitmask: bv16): (lines: seq<string>)
    ensures bitmask == 0 ==> lines == [SpecNormal]
    ensures |lines| == (if bitmask == 0 then 1 else |TabledSetBits(SpecTable(), bitmask)|)
    ensures |lines| >= 1
  {
    DecodeFacts(SpecTable(), SpecNormal, bitmask);
    SpecNeverSilent(bitmask);
    Decode(SpecTable(), SpecNormal, bitmask)
  }

  // ---------------------------------------------------------------------
  // Which words print nothing
  // ---------------------------------------------------------------------

  lemma DeviceMaskBits(mask: bv16)
    ensures mask & 0xE00F == 0 <==>
      mask & 0x8000 == 0 && mask & 0x4000 == 0 && mask & 0x2000 == 0 && mask & 0x0008 == 0 &&
      mask & 0x0004 == 0 && mask & 0x0002 == 0 && mask & 0x0001 == 0
  {
  }

  /** The device printer has no message for bits 4 to 12. */
  lemma DeviceSilent(mask: bv16)
    ensures TabledSetBits(DeviceTable(), mask) == {} <==> mask & 0xE00F == 0
  {
    var t := DeviceTable();
    NoTabledBits(t, mask);
    DeviceMaskBits(mask);
    assert t[0].bit == 15 && t[1].bit == 14 && t[2].bit == 13 && t[3].bit == 3;
    assert t[4].bit == 2 && t[5].bit == 1 && t[6].bit == 0;
  }

  lemma SystemMaskBits(mask: bv16)
    ensures mask & 0x0063 == 0 <==>
      mask & 0x0040 == 0 && mask & 0x0020 == 0 && mask & 0x0002 == 0 && mask & 0x0001 == 0
  {
  }

  /** The system printer has no message for bits 2 to 4 and 7 to 15. */
  lemma SystemSilent(mask: bv16)
    ensures TabledSetBits(SystemTable(), mask) == {} <==> mask & 0x0063 == 0
  {
    var t := SystemTable();
    NoTabledBits(t, mask);
    SystemMaskBits(mask);
    assert t[0].bit == 6 && t[1].bit == 5 && t[2].bit == 1 && t[3].bit == 0;
  }

  lemma ParameterMaskBits(mask: bv16)
    ensures mask & 0xF83F == 0 <==>
      mask & 0x8000 == 0 && mask & 0x4000 == 0 && mask & 0x2000 == 0 && mask & 0x1000 == 0 &&
      mask & 0x0800 == 0 && mask & 0x0020 == 0 && mask & 0x0010 == 0 && mask & 0x0008 == 0 &&
      mask & 0x0004 == 0 && mask & 0x0002 == 0 && mask & 0x0001 == 0
  {
  }

  /** The parameter printer has no message for bits 6 to 10. */
  lemma ParameterSilent(mask: bv16)
    ensures TabledSetBits(ParameterTable(), mask) == {} <==> mask & 0xF83F == 0
  {
    var t := ParameterTable();
    NoTabledBits(t, mask);
    ParameterMaskBits(mask);
    assert t[0].bit == 15 && t[1].bit == 14 && t[2].bit == 13 && t[3].bit == 12;
    assert t[4].bit == 11 && t[5].bit == 5 && t[6].bit == 4 && t[7].bit == 3;
    assert t[8].bit == 2 && t[9].bit == 1 && t[10].bit == 0;
  }

  lemma NonZeroHasBit(mask: bv16)
    requires mask != 0
    ensures exists b: nat :: b < 16 && BitSet(mask, b)
  {
    if mask & 0x00FF != 0 {
      if mask & 0x000F != 0 {
        if BitSet(mask, 0) { assert BitSet(mask, 0); }
        else if BitSet(mask, 1) { assert BitSet(mask, 1); }
        else if BitSet(mask, 2) { assert BitSet(mask, 2); }
        else { assert BitSet(mask, 3); }
      } else {
        if BitSet(mask, 4) { assert BitSet(mask, 4); }
        else if BitSet(mask, 5) { assert BitSet(mask, 5); }
        else if BitSet(mask, 6) { assert BitSet(mask, 6); }
        else { assert BitSet(mask, 7); }
      }
    } else {
      if mask & 0x0F00 != 0 {
        if BitSet(mask, 8) { assert BitSet(mask, 8); }
        else if BitSet(mask, 9) { assert BitSet(mask, 9); }
        else if BitSet(mask, 10) { assert BitSet(mask, 10); }
        else { assert BitSet(mask, 11); }
      } else {
        if BitSet(mask, 12) { assert BitSet(mask, 12); }
        else if BitSet(mask, 13) { assert BitSet(mask, 13); }
        else if BitSet(mask, 14) { assert BitSet(mask, 14); }
        else { assert BitSet(mask, 15); }
      }
    }
  }

  /** The spectrometer printer lists all sixteen bits, so a non-zero word
      always prints at least one message. */
  lemma SpecNeverSilent(mask: bv16)
    ensures mask != 0 ==> TabledSetBits(SpecTable(), mask) != {}
  {
    if mask != 0 {
      NonZeroHasBit(mask);
      var b: nat :| b < 16 && BitSet(mask, b);
      var t := SpecTable();
      assert t[15 - b].bit == b;
      assert b in TabledSetBits(t, mask);
    }
  }

  /** The device printer's messages depend on bits 15, 14, 13 and 3 to 0
      alone: for instance bit 10 alone prints nothing at all. */
  lemma DeviceIgnoresUntabled(mask: bv16)
    ensures Fired(DeviceTable(), mask) == Fired(DeviceTable(), mask & 0xE00F)
    ensures PrintDeviceStatus(0x0400) == []
  {
    var t := DeviceTable();
    DeviceMaskAgree(mask);
    assert t[0].bit == 15 && t[1].bit == 14 && t[2].bit == 13 && t[3].bit == 3;
    assert t[4].bit == 2 && t[5].bit == 1 && t[6].bit == 0;
    FiredIgnoresUntabled(t, mask, mask & 0xE00F);
  }

  lemma DeviceMaskAgree(mask: bv16)
    ensures forall b: nat :: b < 16 && b in {15, 14, 13, 3, 2, 1, 0} ==> (BitSet(mask, b) <==> BitSet(mask & 0xE00F, b))
  {
  }
}
