/**
 * The amd64 serial console: COM1, a 16550 UART reached through I/O ports
 * 0x3F8..0x3FF.
 *
 * `SerialPort` is a unit struct whose state is the static
 * `IS_INITIALIZED` flag; the class below holds that flag together with the
 * port accesses made so far and the values the line-status port will
 * return, which stand for the hardware.
 */
module ConsoleAmd64 {
  import opened Prelude
  import opened Console

  const COM1_PORT: U64 := 0x3F8

  const DATA_PORT: U64 := COM1_PORT + DATA_OFFSET
  const LINE_STATUS_PORT: U64 := COM1_PORT + LINE_STATUS_OFFSET

  /** The initialisation sequence on COM1. */
  const COM1_INIT: seq<Access> := [
    Write(0x3FB, 0x80), Write(0x3F8, 0x01), Write(0x3F9, 0x00),
    Write(0x3FB, 0x03), Write(0x3FA, 0xC7), Write(0x3F9, 0x00)
  ]

  /** The writes are the UART initialisation sequence at COM1's ports. */
  lemma Com1Init()
    ensures COM1_INIT == AtBase(COM1_PORT, INIT_SEQUENCE)
  {
  }

  class SerialPort {
    /** `IS_INITIALIZED`: whether `init` has programmed the UART. */
    var initialized: bool
    /** Every port access made so far, in order. */
    var bus: seq<Access>
    /** The values the line-status port returns on the coming reads. */
    var status: seq<Byte>

    constructor (status: seq<Byte>)
      ensures !initialized && bus == [] && this.status == status
    {
      initialized := false;
      bus := [];
      this.status := status;
    }

    /** `platform_write`: one byte to the port at COM1 plus `port`. */
    method PlatformWrite(port: nat, data: Byte)
      requires port < 8
      modifies this
      ensures bus == old(bus) + [Write(COM1_PORT + port, data)]
      ensures initialized == old(initialized) && status == old(status)
    {
      bus := bus + [Write(COM1_PORT + port, data)];
    }

    /** The six register writes of `init`, at ports 0x3FB, 0x3F8, 0x3F9, 0x3FB, 0x3FA, 0x3F9. */
    method Program()
      modifies this
      ensures bus == old(bus) + COM1_INIT
      ensures initialized == old(initialized) && status == old(status)
    {
      PlatformWrite(LINE_CTRL_OFFSET, 0x80);
      PlatformWrite(DATA_OFFSET + 0, 0x01);
      PlatformWrite(DATA_OFFSET + 1, 0x00);
      PlatformWrite(LINE_CTRL_OFFSET, 0x03);
      PlatformWrite(FIFO_CTRL_OFFSET, 0xC7);
      PlatformWrite(DATA_OFFSET + 1, 0x00);
    }

    /**
     * `init`: the first call programs the UART and sets the flag; once the
     * flag is set a call makes no access at all.
     */
    method Init()
      modifies this
      ensures initialized
      ensures bus == old(bus) + (if old(initialized) then [] else COM1_INIT)
      ensures status == old(status)
    {
      if initialized {
        return;
      }
      Program();
      initialized := true;
    }

    /** `is_transmit_empty`: one read of the line-status port; true iff bit 5 is set. */
    method IsTransmitEmpty() returns (empty: bool)
      requires |status| > 0
      modifies this
      ensures empty <==> TransmitEmpty(old(status)[0])
      ensures bus == old(bus) + [Read(LINE_STATUS_PORT, old(status)[0])]
      ensures status == old(status)[1..] && initialized == old(initialized)
    {
      var value := status[0];
      bus := bus + [Read(LINE_STATUS_PORT, value)];
      status := status[1..];
      empty := TransmitEmpty(value);
    }

    /**
     * `write_byte`: poll until the transmitter is empty, then write the
     * byte to the data port. The device must eventually report empty.
     */
    method WriteByte(b: Byte)
      requires Empties(status) > 0
      modifies this
      ensures bus == old(bus) + Transmit(old(status), [b], LINE_STATUS_PORT, DATA_PORT).trace
      ensures status == Transmit(old(status), [b], LINE_STATUS_PORT, DATA_PORT).rest
      ensures initialized == old(initialized)
    {
      ghost var whole := Wait(status, LINE_STATUS_PORT);
      ghost var polled: seq<Access> := [];
      assert polled + whole.trace == whole.trace;
      var empty := false;
      while !empty
        invariant initialized == old(initialized)
        invariant bus == old(bus) + polled
        invariant empty ==> polled == whole.trace && status == whole.rest
        invariant !empty ==> Empties(status) > 0 && polled + Wait(status, LINE_STATUS_PORT).trace == whole.trace
        invariant !empty ==> Wait(status, LINE_STATUS_PORT).rest == whole.rest
        decreases |status|, if empty then 0 else 1
      {
        PollStep(polled, status, whole, LINE_STATUS_PORT);
        polled := polled + [Read(LINE_STATUS_PORT, status[0])];
        empty := IsTransmitEmpty();
      }
      SendByte(old(status), b, LINE_STATUS_PORT, DATA_PORT);
      PlatformWrite(DATA_OFFSET, b);
      AppendAssociates(old(bus), whole.trace, [Write(DATA_PORT, b)]);
    }

    /** Progress of `write_str`: the first `i` bytes of `s` have been sent, starting from `bus0` and `status0`. */
    ghost predicate Sending(bus0: seq<Access>, status0: seq<Byte>, s: seq<Byte>, i: nat)
      reads this
    {
      i <= |s| && Empties(status0) >= |Translated(s)| && |Translated(s[..i])| <= |Translated(s)|
      && bus == bus0 + Transmit(status0, Translated(s[..i]), LINE_STATUS_PORT, DATA_PORT).trace
      && status == Transmit(status0, Translated(s[..i]), LINE_STATUS_PORT, DATA_PORT).rest
    }

    /** `write_str`: every byte of `s` in order, a line feed as CR LF; always `Ok`. */
    method WriteStr(s: seq<Byte>) returns (res: Result<(), FmtError>)
      requires Empties(status) >= |Translated(s)|
      modifies this
      ensures res == Ok(())
      ensures bus == old(bus) + Transmit(old(status), Translated(s), LINE_STATUS_PORT, DATA_PORT).trace
      ensures status == Transmit(old(status), Translated(s), LINE_STATUS_PORT, DATA_PORT).rest
      ensures initialized == old(initialized)
    {
      assert s[..0] == [];
      var i := 0;
      while i < |s|
        invariant Sending(old(bus), old(status), s, i)
        invariant initialized == old(initialized)
      {
        WriteNext(old(bus), old(status), s, i);
        i := i + 1;
      }
      assert s[..i] == s;
      res := Ok(());
    }

    /** One iteration of `write_str`: the piece of byte `i`. */
    method WriteNext(ghost bus0: seq<Access>, ghost status0: seq<Byte>, s: seq<Byte>, i: nat)
      requires i < |s| && Sending(bus0, status0, s, i)
      modifies this
      ensures Sending(bus0, status0, s, i + 1)
      ensures initialized == old(initialized)
    {
      SendNext(status0, s, i, LINE_STATUS_PORT, DATA_PORT);
      ghost var sent := Transmit(status0, Translated(s[..i]), LINE_STATUS_PORT, DATA_PORT);
      ghost var piece := Transmit(sent.rest, Piece(s[i]), LINE_STATUS_PORT, DATA_PORT);
      WritePiece(s[i]);
      AppendAssociates(bus0, sent.trace, piece.trace);
    }

    /** The bytes `write_str` sends for one input byte: CR then LF for a line feed, the byte itself otherwise. */
    method WritePiece(b: Byte)
      requires Empties(status) >= |Piece(b)|
      modifies this
      ensures bus == old(bus) + Transmit(old(status), Piece(b), LINE_STATUS_PORT, DATA_PORT).trace
      ensures status == Transmit(old(status), Piece(b), LINE_STATUS_PORT, DATA_PORT).rest
      ensures initialized == old(initialized)
    {
      if b == LF {
        SendLineFeed(status, LINE_STATUS_PORT, DATA_PORT);
        WriteByte(CR);
        WriteByte(LF);
        AppendAssociates(old(bus), Transmit(old(status), [CR], LINE_STATUS_PORT, DATA_PORT).trace,
          Transmit(Transmit(old(status), [CR], LINE_STATUS_PORT, DATA_PORT).rest, [LF], LINE_STATUS_PORT, DATA_PORT).trace);
      } else {
        WriteByte(b);
      }
    }
  }
}
