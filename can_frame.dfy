/** The part of a CAN receive-FIFO mailbox that the safety hooks look at.
    Every register is a 32-bit word; the standard 11-bit identifier sits in
    the top bits of RIR, the data length code in the low nibble of RDTR, and
    the eight payload bytes in RDLR (bytes 0-3) and RDHR (bytes 4-7), least
    significant byte first. */
module CanFrame {

  datatype Frame = Frame(rir: bv32, rdtr: bv32, rdlr: bv32, rdhr: bv32)

  /** `RIR >> 21`: the 11-bit standard identifier. */
  function Addr(f: Frame): (a: bv32)
    ensures a < 0x800
  {
    f.rir >> 21
  }

  /** `RDTR & 0xf`: the data length code. */
  function Len(f: Frame): (n: bv32)
    ensures n < 16
  {
    f.rdtr & 0xF
  }

  /** A frame with standard identifier `addr`, data length `len` and payload
      words `lo` and `hi`, laid out in the mailbox registers. */
  function Mailbox(addr: bv32, len: bv32, lo: bv32, hi: bv32): (f: Frame)
    requires addr < 0x800 && len < 16
    ensures Addr(f) == addr && Len(f) == len
    ensures f.rdlr == lo && f.rdhr == hi
  {
    Frame(addr << 21, len, lo, hi)
  }
}
