/**
 * What the serial consoles of amd64, armv9 and sparcv9 have in common.
 *
 * Each console writes a string byte by byte, sending a line feed as a
 * carriage return followed by a line feed. Before every byte it polls the
 * line-status register of a 16550-compatible UART until bit 5 (transmitter
 * holding register empty) is set, then writes the byte to the data
 * register. The amd64 and sparcv9 consoles program the UART once with the
 * same six register writes.
 *
 * The device is modelled by the sequence of values its line-status register
 * returns on successive reads, and the console's effect by the trace of bus
 * accesses it makes, in order.
 */
module Console {
  import opened Prelude

  const LF: Byte := 0x0A
  const CR: Byte := 0x0D

  /** One bus access: a read and the value it returned, or a write. */
  datatype Access = Read(addr: U64, value: Byte) | Write(addr: U64, value: Byte)

  /** `fmt::Result`; a console write never fails. */
  datatype FmtError = FmtError

  // ---------------------------------------------------------------------------
  // Line-ending translation
  // ---------------------------------------------------------------------------

  /** The bytes sent for one input byte: a line feed becomes CR LF, any other byte is sent as is. */
  function Piece(b: Byte): (p: seq<Byte>)
    ensures b == LF ==> p == [CR, LF]
    ensures b != LF ==> p == [b]
  {
    if b == LF then [CR, LF] else [b]
  }

  /** The bytes `write_str` sends for `s`. */
  function Translated(s: seq<Byte>): seq<Byte>
  {
    if |s| == 0 then [] else Piece(s[0]) + Translated(s[1..])
  }

  /** The number of line feeds in `s`. */
  function Newlines(s: seq<Byte>): nat
  {
    if |s| == 0 then 0 else (if s[0] == LF then 1 else 0) + Newlines(s[1..])
  }

  /** Translation distributes over concatenation, so a string may be sent in pieces. */
  lemma {:induction false} TranslatedAppend(a: seq<Byte>, b: seq<Byte>)
    ensures Translated(a + b) == Translated(a) + Translated(b)
  {
    if |a| == 0 {
      assert a + b == b;
    } else {
      assert (a + b)[1..] == a[1..] + b;
      TranslatedAppend(a[1..], b);
    }
  }

  /** One more byte is sent for every line feed. */
  lemma {:induction false} TranslatedLength(s: seq<Byte>)
    ensures |Translated(s)| == |s| + Newlines(s)
  {
    if |s| > 0 {
      TranslatedLength(s[1..]);
    }
  }

  /** Every line feed sent is immediately preceded by a carriage return. */
  lemma {:induction false} NoBareLineFeed(s: seq<Byte>)
    ensures forall i :: 0 <= i < |Translated(s)| && Translated(s)[i] == LF ==> 0 < i && Translated(s)[i - 1] == CR
  {
    if |s| > 0 {
      NoBareLineFeed(s[1..]);
      var t := Translated(s[1..]);
      assert Translated(s) == Piece(s[0]) + t;
      NoLeadingLineFeed(s[1..]);
    }
  }

  /** A translated string never begins with a line feed. */
  lemma NoLeadingLineFeed(s: seq<Byte>)
    ensures |Translated(s)| > 0 ==> Translated(s)[0] != LF
  {
  }

  /** Undoing the translation: a CR LF pair becomes a line feed, every other byte is kept. */
  function Strip(t: seq<Byte>): seq<Byte>
  {
    if |t| == 0 then []
    else if |t| >= 2 && t[0] == CR && t[1] == LF then [LF] + Strip(t[2..])
    else [t[0]] + Strip(t[1..])
  }

  /** The translation loses nothing: stripping what was sent gives back the input, carriage returns included. */
  lemma {:induction false} StripTranslated(s: seq<Byte>)
    ensures Strip(Translated(s)) == s
  {
    if |s| > 0 {
      StripTranslated(s[1..]);
      NoLeadingLineFeed(s[1..]);
      var t := Translated(s[1..]);
      if s[0] == LF {
        assert Translated(s) == [CR, LF] + t;
        assert ([CR, LF] + t)[2..] == t;
      } else {
        assert Translated(s) == [s[0]] + t;
        assert ([s[0]] + t)[1..] == t;
      }
    }
  }

  // ---------------------------------------------------------------------------
  // Polling and transmission
  // ---------------------------------------------------------------------------

  /** Bit 5 of the line-status register: the transmitter holding register is empty. */
  predicate TransmitEmpty(status: Byte)
  {
    status & 0x20 == 0x20
  }

  /** The test is bit 5 and nothing else. */
  lemma TransmitEmptyIsBit5(status: Byte)
    ensures TransmitEmpty(status) <==> (status >> 5) & 1 == 1
  {
  }

  /** The number of reads in `status` that report the transmitter empty. */
  function Empties(status: seq<Byte>): nat
  {
    if |status| == 0 then 0 else (if TransmitEmpty(status[0]) then 1 else 0) + Empties(status[1..])
  }

  /** The accesses a console makes and the status values it leaves unread. */
  datatype Transcript = Transcript(trace: seq<Access>, rest: seq<Byte>)

  /** Polling the line-status register at `lsr` until it reports empty: one read per value, up to and including the first empty one. */
  function Wait(status: seq<Byte>, lsr: U64): (w: Transcript)
    requires Empties(status) > 0
    ensures Empties(w.rest) == Empties(status) - 1
    ensures |w.trace| > 0 && w.trace[|w.trace| - 1].Read? && TransmitEmpty(w.trace[|w.trace| - 1].value)
    ensures forall i :: 0 <= i < |w.trace| ==> w.trace[i].Read? && w.trace[i].addr == lsr
    decreases |status|
  {
    if TransmitEmpty(status[0]) then Transcript([Read(lsr, status[0])], status[1..])
    else
      var w := Wait(status[1..], lsr);
      Transcript([Read(lsr, status[0])] + w.trace, w.rest)
  }

  /** Sending `out`: for each byte, poll until empty, then write the byte to the data register at `data`. */
  function Transmit(status: seq<Byte>, out: seq<Byte>, lsr: U64, data: U64): (t: Transcript)
    requires Empties(status) >= |out|
    ensures Empties(t.rest) == Empties(status) - |out|
    decreases |out|
  {
    if |out| == 0 then Transcript([], status)
    else
      var w := Wait(status, lsr);
      var t := Transmit(w.rest, out[1..], lsr, data);
      Transcript(w.trace + [Write(data, out[0])] + t.trace, t.rest)
  }

  /** Sending `a + b` leaves the status values that sending `a`, then `b`, leaves. */
  lemma {:induction false} TransmitAppendRest(status: seq<Byte>, a: seq<Byte>, b: seq<Byte>, lsr: U64, data: U64)
    requires Empties(status) >= |a| + |b|
    ensures Transmit(status, a + b, lsr, data).rest == Transmit(Transmit(status, a, lsr, data).rest, b, lsr, data).rest
    decreases |a|
  {
    if |a| == 0 {
      assert a + b == b;
    } else {
      var w := Wait(status, lsr);
      assert (a + b)[1..] == a[1..] + b;
      TransmitAppendRest(w.rest, a[1..], b, lsr, data);
    }
  }

  /** Sending `a + b` makes the accesses of sending `a`, then of sending `b` with the status values `a` left. */
  lemma {:induction false} TransmitAppend(status: seq<Byte>, a: seq<Byte>, b: seq<Byte>, lsr: U64, data: U64)
    requires Empties(status) >= |a| + |b|
    ensures Transmit(status, a + b, lsr, data).trace
      == Transmit(status, a, lsr, data).trace + Transmit(Transmit(status, a, lsr, data).rest, b, lsr, data).trace
    decreases |a|
  {
    if |a| == 0 {
      assert a + b == b;
    } else {
      var w := Wait(status, lsr);
      var head := w.trace + [Write(data, a[0])];
      assert (a + b)[1..] == a[1..] + b;
      TransmitAppend(w.rest, a[1..], b, lsr, data);
      var ta := Transmit(w.rest, a[1..], lsr, data);
      var tb := Transmit(ta.rest, b, lsr, data);
      assert Transmit(status, a + b, lsr, data).trace == head + (ta.trace + tb.trace);
      assert Transmit(status, a, lsr, data).trace == head + ta.trace;
      AppendAssociates(head, ta.trace, tb.trace);
    }
  }

  lemma AppendAssociates(a: seq<Access>, b: seq<Access>, c: seq<Access>)
    ensures a + (b + c) == (a + b) + c
  {
  }

  /** Sending one more input byte: the accesses and status values of its piece follow those of the prefix. */
  lemma SendNext(status: seq<Byte>, s: seq<Byte>, i: nat, lsr: U64, data: U64)
    requires i < |s| && Empties(status) >= |Translated(s)|
    ensures |Translated(s[..i + 1])| == |Translated(s[..i])| + |Piece(s[i])| <= |Translated(s)|
    ensures Transmit(status, Translated(s[..i + 1]), lsr, data).trace
      == Transmit(status, Translated(s[..i]), lsr, data).trace
         + Transmit(Transmit(status, Translated(s[..i]), lsr, data).rest, Piece(s[i]), lsr, data).trace
    ensures Transmit(status, Translated(s[..i + 1]), lsr, data).rest
      == Transmit(Transmit(status, Translated(s[..i]), lsr, data).rest, Piece(s[i]), lsr, data).rest
  {
    assert s[..i + 1] == s[..i] + [s[i]];
    assert s == s[..i + 1] + s[i + 1..];
    TranslatedAppend(s[..i + 1], s[i + 1..]);
    TranslatedAppend(s[..i], [s[i]]);
    assert Translated([s[i]]) == Piece(s[i]);
    TransmitAppend(status, Translated(s[..i]), Piece(s[i]), lsr, data);
    TransmitAppendRest(status, Translated(s[..i]), Piece(s[i]), lsr, data);
  }

  /** A line feed is sent as a carriage return, then a line feed. */
  lemma SendLineFeed(status: seq<Byte>, lsr: U64, data: U64)
    requires Empties(status) >= 2
    ensures Transmit(status, [CR, LF], lsr, data).trace
      == Transmit(status, [CR], lsr, data).trace + Transmit(Transmit(status, [CR], lsr, data).rest, [LF], lsr, data).trace
    ensures Transmit(status, [CR, LF], lsr, data).rest == Transmit(Transmit(status, [CR], lsr, data).rest, [LF], lsr, data).rest
  {
    assert [CR, LF] == [CR] + [LF];
    TransmitAppend(status, [CR], [LF], lsr, data);
    TransmitAppendRest(status, [CR], [LF], lsr, data);
  }

  /** Sending one byte: poll until empty, then one write. */
  lemma SendByte(status: seq<Byte>, b: Byte, lsr: U64, data: U64)
    requires Empties(status) >= 1
    ensures Transmit(status, [b], lsr, data).trace == Wait(status, lsr).trace + [Write(data, b)]
    ensures Transmit(status, [b], lsr, data).rest == Wait(status, lsr).rest
  {
    var w := Wait(status, lsr);
    assert Transmit(w.rest, [b][1..], lsr, data).trace == [];
    assert w.trace + [Write(data, b)] + [] == w.trace + [Write(data, b)];
  }

  /**
   * One poll within a wait: if it reports empty, the reads so far are the
   * whole wait; otherwise the reads so far followed by the wait on the
   * remaining values are.
   */
  lemma PollStep(polled: seq<Access>, status: seq<Byte>, whole: Transcript, lsr: U64)
    requires Empties(status) > 0
    requires polled + Wait(status, lsr).trace == whole.trace && Wait(status, lsr).rest == whole.rest
    ensures TransmitEmpty(status[0]) ==> polled + [Read(lsr, status[0])] == whole.trace && status[1..] == whole.rest
    ensures !TransmitEmpty(status[0]) ==> Empties(status[1..]) > 0
    ensures !TransmitEmpty(status[0]) ==> (polled + [Read(lsr, status[0])]) + Wait(status[1..], lsr).trace == whole.trace
    ensures !TransmitEmpty(status[0]) ==> Wait(status[1..], lsr).rest == whole.rest
  {
    if !TransmitEmpty(status[0]) {
      AppendAssociates(polled, [Read(lsr, status[0])], Wait(status[1..], lsr).trace);
    }
  }

  /** The bytes written, in order. */
  function Sent(trace: seq<Access>): seq<Byte>
  {
    if |trace| == 0 then []
    else (if trace[0].Write? then [trace[0].value] else []) + Sent(trace[1..])
  }

  lemma {:induction false} SentAppend(a: seq<Access>, b: seq<Access>)
    ensures Sent(a + b) == Sent(a) + Sent(b)
  {
    if |a| == 0 {
      assert a + b == b;
    } else {
      assert (a + b)[1..] == a[1..] + b;
      SentAppend(a[1..], b);
    }
  }

  lemma {:induction false} SentReads(trace: seq<Access>)
    requires forall i :: 0 <= i < |trace| ==> trace[i].Read?
    ensures Sent(trace) == []
  {
    if |trace| > 0 {
      SentReads(trace[1..]);
    }
  }

  /** Exactly the bytes asked for reach the device, in order. */
  lemma {:induction false} SentTransmit(status: seq<Byte>, out: seq<Byte>, lsr: U64, data: U64)
    requires Empties(status) >= |out|
    ensures Sent(Transmit(status, out, lsr, data).trace) == out
    decreases |out|
  {
    if |out| > 0 {
      var w := Wait(status, lsr);
      var t := Transmit(w.rest, out[1..], lsr, data);
      SentTransmit(w.rest, out[1..], lsr, data);
      SentReads(w.trace);
      SentAppend(w.trace + [Write(data, out[0])], t.trace);
      SentAppend(w.trace, [Write(data, out[0])]);
      assert Sent([Write(data, out[0])]) == [out[0]];
    }
  }

  /** Every write goes to the data register and comes right after a read of the line-status register that reported empty. */
  predicate PolledWrites(trace: seq<Access>, lsr: U64, data: U64)
  {
    forall i :: 0 <= i < |trace| && trace[i].Write? ==>
      trace[i].addr == data && 0 < i && trace[i - 1].Read? && trace[i - 1].addr == lsr && TransmitEmpty(trace[i - 1].value)
  }

  lemma {:induction false} TransmitPolls(status: seq<Byte>, out: seq<Byte>, lsr: U64, data: U64)
    requires Empties(status) >= |out|
    ensures PolledWrites(Transmit(status, out, lsr, data).trace, lsr, data)
    decreases |out|
  {
    if |out| > 0 {
      var w := Wait(status, lsr);
      var t := Transmit(w.rest, out[1..], lsr, data);
      TransmitPolls(w.rest, out[1..], lsr, data);
      var head := w.trace + [Write(data, out[0])];
      var all := head + t.trace;
      if |out| > 1 {
        TransmitStartsWithRead(w.rest, out[1..], lsr, data);
      }
      forall i | 0 <= i < |all| && all[i].Write?
        ensures all[i].addr == data && 0 < i && all[i - 1].Read? && all[i - 1].addr == lsr && TransmitEmpty(all[i - 1].value)
      {
        if i > |head| {
          assert all[i] == t.trace[i - |head|];
          assert all[i - 1] == t.trace[i - 1 - |head|];
        } else if i == |head| {
          assert false;
        } else {
          assert i == |w.trace|;
        }
      }
    }
  }

  /**
   * What the device receives when `s` is written: the translation of `s`,
   * which gives `s` back when stripped and has one more byte per line feed,
   * each byte written to the data register right after a poll that
   * reported the transmitter empty.
   */
  lemma DeviceReceives(status: seq<Byte>, s: seq<Byte>, lsr: U64, data: U64)
    requires Empties(status) >= |Translated(s)|
    ensures Strip(Sent(Transmit(status, Translated(s), lsr, data).trace)) == s
    ensures |Sent(Transmit(status, Translated(s), lsr, data).trace)| == |s| + Newlines(s)
    ensures PolledWrites(Transmit(status, Translated(s), lsr, data).trace, lsr, data)
  {
    SentTransmit(status, Translated(s), lsr, data);
    StripTranslated(s);
    TranslatedLength(s);
    TransmitPolls(status, Translated(s), lsr, data);
  }

  /** A transmission's first access is a read: the console never writes before polling. */
  lemma TransmitStartsWithRead(status: seq<Byte>, out: seq<Byte>, lsr: U64, data: U64)
    requires Empties(status) >= |out| && |out| > 0
    ensures Transmit(status, out, lsr, data).trace[0].Read?
  {
  }

  // ---------------------------------------------------------------------------
  // UART initialisation
  // ---------------------------------------------------------------------------

  const DATA_OFFSET: nat := 0
  const INTERRUPT_ENABLE_OFFSET: nat := 1
  const FIFO_CTRL_OFFSET: nat := 2
  const LINE_CTRL_OFFSET: nat := 3
  const LINE_STATUS_OFFSET: nat := 5

  /** A register write at an offset from the UART's base. */
  datatype RegWrite = RegWrite(offset: nat, value: Byte)

  /**
   * The initialisation sequence: set DLAB, divisor 1 (low, high byte), 8N1
   * with DLAB cleared, FIFOs enabled and cleared, interrupts disabled.
   */
  const INIT_SEQUENCE: seq<RegWrite> := [
    RegWrite(LINE_CTRL_OFFSET, 0x80),
    RegWrite(DATA_OFFSET, 0x01),
    RegWrite(INTERRUPT_ENABLE_OFFSET, 0x00),
    RegWrite(LINE_CTRL_OFFSET, 0x03),
    RegWrite(FIFO_CTRL_OFFSET, 0xC7),
    RegWrite(INTERRUPT_ENABLE_OFFSET, 0x00)
  ]

  /** The bus writes of a register sequence on a UART at `base`. */
  function AtBase(base: U64, ws: seq<RegWrite>): (acc: seq<Access>)
    requires base + 8 < U64_LIMIT
    requires forall i :: 0 <= i < |ws| ==> ws[i].offset < 8
    ensures |acc| == |ws|
    ensures forall i :: 0 <= i < |ws| ==> acc[i] == Write(base + ws[i].offset, ws[i].value)
  {
    if |ws| == 0 then [] else [Write(base + ws[0].offset, ws[0].value)] + AtBase(base, ws[1..])
  }

  /** The 16550 registers the initialisation reaches. */
  datatype Uart16550 = Uart16550(lcr: Byte, dll: Byte, dlm: Byte, ier: Byte, fcr: Byte)

  /** Bit 7 of the line-control register: offsets 0 and 1 address the divisor latch. */
  predicate Dlab(lcr: Byte)
  {
    lcr & 0x80 != 0
  }

  /** The register a write lands in, by offset and DLAB. */
  function Apply(u: Uart16550, w: RegWrite): Uart16550
  {
    if w.offset == DATA_OFFSET && Dlab(u.lcr) then u.(dll := w.value)
    else if w.offset == INTERRUPT_ENABLE_OFFSET && Dlab(u.lcr) then u.(dlm := w.value)
    else if w.offset == INTERRUPT_ENABLE_OFFSET then u.(ier := w.value)
    else if w.offset == FIFO_CTRL_OFFSET then u.(fcr := w.value)
    else if w.offset == LINE_CTRL_OFFSET then u.(lcr := w.value)
    else u
  }

  function ApplyAll(u: Uart16550, ws: seq<RegWrite>): Uart16550
    decreases |ws|
  {
    if |ws| == 0 then u else ApplyAll(Apply(u, ws[0]), ws[1..])
  }

  lemma DlabSet()
    ensures Dlab(0x80)
  {
  }

  lemma DlabClear()
    ensures !Dlab(0x03)
  {
  }

  /** The divisor latch value. */
  function Divisor(u: Uart16550): nat
  {
    (u.dlm as nat) * 256 + u.dll as nat
  }

  /**
   * Whatever state the UART was in, the sequence leaves divisor 1 (115200
   * baud from the 1.8432 MHz clock), line control 0x03 (8 data bits, no
   * parity, 1 stop bit, DLAB off), FIFO control 0xC7 and all interrupts off.
   */
  lemma InitProgramsUart(u: Uart16550)
    ensures ApplyAll(u, INIT_SEQUENCE) == Uart16550(0x03, 0x01, 0x00, 0x00, 0xC7)
    ensures Divisor(ApplyAll(u, INIT_SEQUENCE)) == 1
    ensures !Dlab(ApplyAll(u, INIT_SEQUENCE).lcr)
  {
    DlabSet();
    DlabClear();
    var u1 := u.(lcr := 0x80);
    var u2 := u1.(dll := 0x01);
    var u3 := u2.(dlm := 0x00);
    var u4 := u3.(lcr := 0x03);
    var u5 := u4.(fcr := 0xC7);
    assert ApplyAll(u5, INIT_SEQUENCE[5..]) == u5.(ier := 0x00);
    assert ApplyAll(u4, INIT_SEQUENCE[4..]) == ApplyAll(u5, INIT_SEQUENCE[5..]);
    assert ApplyAll(u3, INIT_SEQUENCE[3..]) == ApplyAll(u4, INIT_SEQUENCE[4..]);
    assert ApplyAll(u2, INIT_SEQUENCE[2..]) == ApplyAll(u3, INIT_SEQUENCE[3..]);
    assert ApplyAll(u1, INIT_SEQUENCE[1..]) == ApplyAll(u2, INIT_SEQUENCE[2..]);
  }
}
