/** The Modbus master the driver talks through.  The library that provides
    it (request framing, CRC, serial timing, and the `*FromFrame` decoders)
    is not part of this model: the slave device is an abstract function
    from a read request to the response bytes, and each decoder is an
    abstract function of the response bytes and a byte index.  What the
    model keeps is the library's state as the driver sees it: the last
    response frame, which the `*FromFrame` decoders read, and the sequences
    of read and write transactions issued so far. */
module Modbus {
  import opened Bytes
  import opened Payloads

  /** Read function codes (section 6 of the Modbus Application Protocol
      Specification V1.1b3). */
  const ReadCoils: Byte := 0x01
  const ReadDiscreteInputs: Byte := 0x02
  const ReadHoldingRegisters: Byte := 0x03
  const ReadInputRegisters: Byte := 0x04
  /** Write Single Coil, section 6.5 of the same specification. */
  const WriteSingleCoil: Byte := 0x05

  /** Quantity limit of one Read Input Registers or Read Holding
      Registers request (sections 6.3 and 6.4: 1 to 125 registers). */
  const MaxReadCount: nat := 125

  /** Bytes ahead of the first register in an RTU read response: the slave
      address, the function code and the byte count. */
  const HeaderBytes: nat := 3

  /** One read transaction: function code, first register, register count. */
  datatype Request = Request(fc: Byte, start: int, count: int)

  /** Byte index, in the response to a read that began at `start`, of the
      first byte of register `reg`. */
  function RegisterByteIndex(start: int, reg: int): int
  {
    HeaderBytes + 2 * (reg - start)
  }

  /** Number of bytes a response to a read of `count` registers holds
      ahead of the CRC. */
  function FrameLength(count: nat): nat
  {
    HeaderBytes + 2 * count
  }

  class ModbusMaster {
    /** The slave device: the response frame to a read request. */
    const respond: (Byte, int, int) -> seq<Byte>
    /** `float32FromFrame(bigEndian, i)`: the 32-bit pattern at byte `i`. */
    const float32: (seq<Byte>, int) -> UInt32
    /** `uint16FromFrame(bigEndian, i)`. */
    const uint16: (seq<Byte>, int) -> UInt16
    /** `StringFromFrame(chars, i)`. */
    const text: (seq<Byte>, nat, int) -> string
    /** `pointerFromFrame(bigEndian, i)` and `pointerTypeFromFrame(bigEndian, i)`. */
    const pointer: (seq<Byte>, int) -> int
    const pointerType: (seq<Byte>, int) -> int
    /** Whether the slave acknowledges a write (`setRegisters`' result). */
    const acknowledge: WriteRequest -> bool

    /** The last response frame received. */
    var frame: seq<Byte>
    /** Every read transaction issued, oldest first. */
    var log: seq<Request>
    /** Every write transaction issued, oldest first. */
    var writes: seq<WriteRequest>

    constructor (respond: (Byte, int, int) -> seq<Byte>, float32: (seq<Byte>, int) -> UInt32,
                 uint16: (seq<Byte>, int) -> UInt16, text: (seq<Byte>, nat, int) -> string,
                 pointer: (seq<Byte>, int) -> int, pointerType: (seq<Byte>, int) -> int,
                 acknowledge: WriteRequest -> bool)
      ensures this.respond == respond && this.float32 == float32 && this.uint16 == uint16
      ensures this.text == text && this.pointer == pointer && this.pointerType == pointerType
      ensures this.acknowledge == acknowledge
      ensures frame == [] && log == [] && writes == []
    {
      this.respond := respond;
      this.float32 := float32;
      this.uint16 := uint16;
      this.text := text;
      this.pointer := pointer;
      this.pointerType := pointerType;
      this.acknowledge := acknowledge;
      frame := [];
      log := [];
      writes := [];
    }

    /** `getRegisters(fc, start, count)`: one read transaction; its
        response becomes the current frame. */
    method GetRegisters(fc: Byte, start: int, count: int)
      modifies this
      ensures frame == respond(fc, start, count)
      ensures log == old(log) + [Request(fc, start, count)] && writes == old(writes)
    {
      frame := respond(fc, start, count);
      log := log + [Request(fc, start, count)];
    }

    /** `setRegisters(start, count, bytes)`: one write transaction; the
        result says whether the slave acknowledged it. */
    method SetRegisters(w: WriteRequest) returns (ok: bool)
      modifies this
      ensures writes == old(writes) + [w] && log == old(log)
      ensures ok == acknowledge(w)
    {
      writes := writes + [w];
      ok := acknowledge(w);
    }

    /** `float32FromFrame(bigEndian, index)` on the current frame. */
    function Float32FromFrame(index: int): UInt32
      reads this
    {
      float32(frame, index)
    }

    /** The value `uint16FromRegister(fc, reg)` yields: one register read,
        decoded right after the header. */
    function Uint16At(fc: Byte, reg: int): UInt16
    {
      uint16(respond(fc, reg, 1), HeaderBytes)
    }

    /** `uint16FromRegister(fc, reg, bigEndian)`. */
    method Uint16FromRegister(fc: Byte, reg: int) returns (v: UInt16)
      modifies this
      ensures frame == respond(fc, reg, 1)
      ensures log == old(log) + [Request(fc, reg, 1)] && writes == old(writes)
      ensures v == Uint16At(fc, reg)
    {
      GetRegisters(fc, reg, 1);
      v := uint16(frame, HeaderBytes);
    }

    /** `float32FromRegister(fc, reg, bigEndian)`: two registers. */
    method Float32FromRegister(fc: Byte, reg: int) returns (v: UInt32)
      modifies this
      ensures frame == respond(fc, reg, 2)
      ensures log == old(log) + [Request(fc, reg, 2)] && writes == old(writes)
      ensures v == float32(respond(fc, reg, 2), HeaderBytes)
    {
      GetRegisters(fc, reg, 2);
      v := Float32FromFrame(HeaderBytes);
    }

    /** `StringFromRegister(fc, reg, chars)`: `chars` characters, two per
        register. */
    method StringFromRegister(fc: Byte, reg: int, chars: nat) returns (s: string)
      modifies this
      ensures frame == respond(fc, reg, chars / 2)
      ensures log == old(log) + [Request(fc, reg, chars / 2)] && writes == old(writes)
      ensures s == text(respond(fc, reg, chars / 2), chars, HeaderBytes)
    {
      GetRegisters(fc, reg, chars / 2);
      s := text(frame, chars, HeaderBytes);
    }

    /** `pointerFromRegister(fc, reg)`. */
    method PointerFromRegister(fc: Byte, reg: int) returns (p: int)
      modifies this
      ensures frame == respond(fc, reg, 1)
      ensures log == old(log) + [Request(fc, reg, 1)] && writes == old(writes)
      ensures p == pointer(respond(fc, reg, 1), HeaderBytes)
    {
      GetRegisters(fc, reg, 1);
      p := pointer(frame, HeaderBytes);
    }

    /** `pointerTypeFromRegister(fc, reg)`. */
    method PointerTypeFromRegister(fc: Byte, reg: int) returns (t: int)
      modifies this
      ensures frame == respond(fc, reg, 1)
      ensures log == old(log) + [Request(fc, reg, 1)] && writes == old(writes)
      ensures t == pointerType(respond(fc, reg, 1), HeaderBytes)
    {
      GetRegisters(fc, reg, 1);
      t := pointerType(frame, HeaderBytes);
    }
  }
}
