/**
 * The sparcv9 serial console: a 16550-compatible UART mapped at
 * 0xFE00_0000, its registers at byte offsets from that base.
 *
 * `Uart` is a unit struct whose state is the static `IS_INITIALIZED` flag;
 * the class below holds that flag together with the memory accesses made
 * so far and the values the line-status register will return, which stand
 * for the hardware.
 */
module ConsoleSparcv9 {
  import opened Prelude
  import opened Console

  const UART_MMIO_ADDR: U64 := 0xFE00_0000

  /** `get_register_addr`: the base plus the offset, or a panic (`None`) when the sum overflows. */
  function GetRegisterAddr(offset: U64): (addr: Option<U64>)
    ensures addr.Some? <==> offset < U64_LIMIT - UART_MMIO_ADDR
    ensures addr.Some? ==> addr.value - offset == UART_MMIO_ADDR
  {
    if UART_MMIO_ADDR + offset < U64_LIMIT then Some(UART_MMIO_ADDR + offset) else None
  }

  /** Every register offset of the UART has an address, and different offsets have different addresses. */
  lemma RegisterAddrs(o1: U64, o2: U64)
    requires o1 < 8 && o2 < 8
    ensures GetRegisterAddr(o1).Some? && GetRegisterAddr(o2).Some?
    ensures GetRegisterAddr(o1) == GetRegisterAddr(o2) <==> o1 == o2
  {
  }

  const DATA_REGISTER: U64 := UART_MMIO_ADDR + DATA_OFFSET
  const LINE_STATUS_REGISTER: U64 := UART_MMIO_ADDR + LINE_STATUS_OFFSET

  /** The initialisation sequence at the UART's registers. */
  const UART_INIT: seq<Access> := [
    Write(0xFE00_0003, 0x80), Write(0xFE00_0000, 0x01), Write(0xFE00_0001, 0x00),
    Write(0xFE00_0003, 0x03), Write(0xFE00_0002, 0xC7), Write(0xFE00_0001, 0x00)
  ]

  /** The writes are the UART initialisation sequence at the UART's base. */
  lemma UartInit()
    ensures UART_INIT == AtBase(UART_MMIO_ADDR, INIT_SEQUENCE)
  {
  }

  class Uart {
    /** `IS_INITIALIZED`: whether `init` has run. */
    var initialized: bool
    /** Every register access made so far, in order. */
    var bus: seq<Access>
    /** The values the line-status register returns on the coming reads. */
    var status: seq<Byte>

    constructor (status: seq<Byte>)
      ensures !initialized && bus == [] && this.status == status
    {
      initialized := false;
      bus := [];
      this.status := status;
    }

    /** `platform_write`: one byte to the register at `offset`. */
    method PlatformWrite(offset: nat, data: Byte)
      requires offset < 8
      modifies this
      ensures bus == old(bus) + [Write(UART_MMIO_ADDR + offset, data)]
      ensures initialized == old(initialized) && status == old(status)
    {
      var addr := GetRegisterAddr(offset).value;
      bus := bus + [Write(addr, data)];
    }

    /** The six register writes of `init`, at offsets 3, 0, 1, 3, 2, 1. */
    method Program()
      modifies this
      ensures bus == old(bus) + UART_INIT
      ensures initialized == old(initialized) && status == old(status)
    {
      PlatformWrite(LINE_CTRL_OFFSET, 0x80);
      PlatformWrite(DATA_OFFSET + 0, 0x01);
      PlatformWrite(DATA_OFFSET + 1, 0x00);
      PlatformWrite(LINE_CTRL_OFFSET, 0x03);
      PlatformWrite(FIFO_CTRL_OFFSET, 0xC7);
      PlatformWrite(DATA_OFFSET + 1, 0x00);
    }

    /**
     * `init`: the first call programs the UART and sets the flag; once the
     * flag is set a call makes no access at all.
     */
    method Init()
      modifies this
      ensures initialized
      ensures bus == old(bus) + (if old(initialized) then [] else UART_INIT)
      ensures status == old(status)
    {
      if initialized {
        return;
      }
      Program();
      initialized := true;
    }

    /** `is_transmit_empty`: one read of the line-status register; true iff bit 5 is set. */
    method IsTransmitEmpty() returns (empty: bool)
      requires |status| > 0
      modifies this
      ensures empty <==> TransmitEmpty(old(status)[0])
      ensures bus == old(bus) + [Read(LINE_STATUS_REGISTER, old(status)[0])]
      ensures status == old(status)[1..] && initialized == old(initialized)
    {
      var addr := GetRegisterAddr(LINE_STATUS_OFFSET).value;
      var value := status[0];
      bus := bus + [Read(addr, value)];
      status := status[1..];
      empty := TransmitEmpty(value);
    }

    /**
     * `write_byte`: poll until the transmitter is empty, then write the
     * byte to the data register. The device must eventually report empty.
     */
    method WriteByte(b: Byte)
      requires Empties(status) > 0
      modifies this
      ensures bus == old(bus) + Transmit(old(status), [b], LINE_STATUS_REGISTER, DATA_REGISTER).trace
      ensures status == Transmit(old(status), [b], LINE_STATUS_REGISTER, DATA_REGISTER).rest
      ensures initialized == old(initialized)
    {
      ghost var whole := Wait(status, LINE_STATUS_REGISTER);
      ghost var polled: seq<Access> := [];
      assert polled + whole.trace == whole.trace;
      var empty := false;
      while !empty
        invariant initialized == old(initialized)
        invariant bus == old(bus) + polled
        invariant empty ==> polled == whole.trace && status == whole.rest
        invariant !empty ==> Empties(status) > 0 && polled + Wait(status, LINE_STATUS_REGISTER).trace == whole.trace
        invariant !empty ==> Wait(status, LINE_STATUS_REGISTER).rest == whole.rest
        decreases |status|, if empty then 0 else 1
      {
        PollStep(polled, status, whole, LINE_STATUS_REGISTER);
        polled := polled + [Read(LINE_STATUS_REGISTER, status[0])];
        empty := IsTransmitEmpty();
      }
      SendByte(old(status), b, LINE_STATUS_REGISTER, DATA_REGISTER);
      PlatformWrite(DATA_OFFSET, b);
      AppendAssociates(old(bus), whole.trace, [Write(DATA_REGISTER, b)]);
    }

    /** Progress of `write_str`: the first `i` bytes of `s` have been sent, starting from `bus0` and `status0`. */
    ghost predicate Sending(bus0: seq<Access>, status0: seq<Byte>, s: seq<Byte>, i: nat)
      reads this
    {
      i <= |s| && Empties(status0) >= |Translated(s)| && |Translated(s[..i])| <= |Translated(s)|
      && bus == bus0 + Transmit(status0, Translated(s[..i]), LINE_STATUS_REGISTER, DATA_REGISTER).trace
      && status == Transmit(status0, Translated(s[..i]), LINE_STATUS_REGISTER, DATA_REGISTER).rest
    }

    /** `write_str`: every byte of `s` in order, a line feed as CR LF; always `Ok`. */
    method WriteStr(s: seq<Byte>) returns (res: Result<(), FmtError>)
      requires Empties(status) >= |Translated(s)|
      modifies this
      ensures res == Ok(())
      ensures bus == old(bus) + Transmit(old(status), Translated(s), LINE_STATUS_REGISTER, DATA_REGISTER).trace
      ensures status == Transmit(old(status), Translated(s), LINE_STATUS_REGISTER, DATA_REGISTER).rest
      ensures initialized == old(initialized)
    {
      assert s[..0] == [];
      var i := 0;
      while i < |s|
        invariant Sending(old(bus), old(status), s, i)
        invariant initialized == old(initialized)
      {
        WriteNext(old(bus), old(status), s, i);
        i := i + 1;
      }
      assert s[..i] == s;
      res := Ok(());
    }

    /** One iteration of `write_str`: the piece of byte `i`. */
    method WriteNext(ghost bus0: seq<Access>, ghost status0: seq<Byte>, s: seq<Byte>, i: nat)
      requires i < |s| && Sending(bus0, status0, s, i)
      modifies this
      ensures Sending(bus0, status0, s, i + 1)
      ensures initialized == old(initialized)
    {
      SendNext(status0, s, i, LINE_STATUS_REGISTER, DATA_REGISTER);
      ghost var sent := Transmit(status0, Translated(s[..i]), LINE_STATUS_REGISTER, DATA_REGISTER);
      ghost var piece := Transmit(sent.rest, Piece(s[i]), LINE_STATUS_REGISTER, DATA_REGISTER);
      WritePiece(s[i]);
      AppendAssociates(bus0, sent.trace, piece.trace);
    }

    /** The bytes `write_str` sends for one input byte: CR then LF for a line feed, the byte itself otherwise. */
    method WritePiece(b: Byte)
      requires Empties(status) >= |Piece(b)|
      modifies this
      ensures bus == old(bus) + Transmit(old(status), Piece(b), LINE_STATUS_REGISTER, DATA_REGISTER).trace
      ensures status == Transmit(old(status), Piece(b), LINE_STATUS_REGISTER, DATA_REGISTER).rest
      ensures initialized == old(initialized)
    {
      if b == LF {
        SendLineFeed(status, LINE_STATUS_REGISTER, DATA_REGISTER);
        WriteByte(CR);
        WriteByte(LF);
        AppendAssociates(old(bus), Transmit(old(status), [CR], LINE_STATUS_REGISTER, DATA_REGISTER).trace,
          Transmit(Transmit(old(status), [CR], LINE_STATUS_REGISTER, DATA_REGISTER).rest, [LF], LINE_STATUS_REGISTER, DATA_REGISTER).trace);
      } else {
        WriteByte(b);
      }
    }
  }
}
