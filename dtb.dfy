/**
 * The device-tree state every architecture keeps: the physical address of
 * the flattened device tree handed over by the boot loader, and the
 * hardware configuration once it has been parsed.
 *
 * No architecture reads the blob: `parse_dtb` checks only that the address
 * is not 0 and then records a configuration fixed per architecture, which
 * is a parameter `parsed` here. `parse_dtb` does not record the address it
 * is given; only `set_dtb_address` does, and it ignores 0.
 */
module Dtb {
  import opened Prelude

  /**
   * The errors the parsers return. The kernel-wide `KernelError` of
   * `platformgeneric.rs` declares neither of these variants.
   */
  datatype DtbError = DtbNotFound | ConfigurationNotParsed

  /** `DtbInfo`: the static `DTB_INFO`. */
  datatype DtbInfo<C> = DtbInfo(physicalAddress: U64, config: Option<C>)

  /** The initial value of `DTB_INFO`: no address, nothing parsed. */
  function Initial<C>(): DtbInfo<C>
  {
    DtbInfo(0, None)
  }

  /** `set_dtb_address`: a nonzero address replaces the recorded one; 0 changes nothing. The configuration is untouched. */
  function SetAddress<C>(info: DtbInfo<C>, addr: U64): (info': DtbInfo<C>)
    ensures info'.config == info.config
    ensures addr == 0 ==> info' == info
    ensures addr != 0 ==> info'.physicalAddress == addr
  {
    if addr != 0 then info.(physicalAddress := addr) else info
  }

  /** The state `parse_dtb` leaves: the configuration recorded after a nonzero address, the state unchanged otherwise. */
  function Parsed<C>(info: DtbInfo<C>, addr: U64, parsed: C): (info': DtbInfo<C>)
    ensures info'.physicalAddress == info.physicalAddress
    ensures addr == 0 ==> info' == info
    ensures addr != 0 ==> info'.config == Some(parsed)
  {
    if addr == 0 then info else info.(config := Some(parsed))
  }

  /** What `parse_dtb` returns: `DtbNotFound` for address 0, the configuration otherwise. */
  function ParseResult<C>(addr: U64, parsed: C): (r: Result<C, DtbError>)
    ensures r.Err? <==> addr == 0
    ensures r.Err? ==> r.error == DtbNotFound
    ensures r.Ok? ==> r.value == parsed
  {
    if addr == 0 then Err(DtbNotFound) else Ok(parsed)
  }

  /** `get_config`: the recorded configuration, or `ConfigurationNotParsed` while there is none. */
  function GetConfig<C>(info: DtbInfo<C>): (r: Result<C, DtbError>)
    ensures r.Ok? <==> info.config.Some?
    ensures r.Ok? ==> r.value == info.config.value
    ensures r.Err? ==> r.error == ConfigurationNotParsed
  {
    if info.config.Some? then Ok(info.config.value) else Err(ConfigurationNotParsed)
  }

  /** A successful parse is what `get_config` returns from then on, and parsing again changes nothing. */
  lemma ParseThenGet<C>(info: DtbInfo<C>, addr: U64, parsed: C)
    requires addr != 0
    ensures GetConfig(Parsed(info, addr, parsed)) == ParseResult(addr, parsed)
    ensures Parsed(Parsed(info, addr, parsed), addr, parsed) == Parsed(info, addr, parsed)
  {
  }

  /** The calls that change `DTB_INFO`. */
  datatype Call = SetDtbAddress(addr: U64) | ParseDtb(dtbAddr: U64)

  /** The state after a run of calls, each parse recording `parsed`. */
  function Run<C>(info: DtbInfo<C>, calls: seq<Call>, parsed: C): DtbInfo<C>
    decreases |calls|
  {
    if |calls| == 0 then info
    else
      var next := match calls[0]
        case SetDtbAddress(a) => SetAddress(info, a)
        case ParseDtb(a) => Parsed(info, a, parsed);
      Run(next, calls[1..], parsed)
  }

  /** Some call of the run parses a nonzero address. */
  predicate ParsesSomething(calls: seq<Call>)
  {
    exists i :: 0 <= i < |calls| && calls[i].ParseDtb? && calls[i].dtbAddr != 0
  }

  /**
   * From the initial state, `get_config` fails with `ConfigurationNotParsed`
   * until a `parse_dtb` with a nonzero address, and returns the parsed
   * configuration after one, whatever the other calls were.
   */
  lemma {:induction false} GetConfigAfterRun<C>(info: DtbInfo<C>, calls: seq<Call>, parsed: C)
    requires info.config.None? || info.config == Some(parsed)
    ensures GetConfig(Run(info, calls, parsed))
      == if info.config.Some? || ParsesSomething(calls) then Ok(parsed) else Err(ConfigurationNotParsed)
    decreases |calls|
  {
    if |calls| > 0 {
      var next := match calls[0]
        case SetDtbAddress(a) => SetAddress(info, a)
        case ParseDtb(a) => Parsed(info, a, parsed);
      GetConfigAfterRun(next, calls[1..], parsed);
      if ParsesSomething(calls[1..]) {
        var i :| 0 <= i < |calls[1..]| && calls[1..][i].ParseDtb? && calls[1..][i].dtbAddr != 0;
        assert calls[i + 1] == calls[1..][i];
      }
      if ParsesSomething(calls) && !(calls[0].ParseDtb? && calls[0].dtbAddr != 0) {
        var i :| 0 <= i < |calls| && calls[i].ParseDtb? && calls[i].dtbAddr != 0;
        assert calls[1..][i - 1] == calls[i];
      }
    }
  }

  /** The last nonzero address given to `set_dtb_address` in a run, or `none` if there is none. */
  function LastAddress(calls: seq<Call>, none: U64): U64
    decreases |calls|
  {
    if |calls| == 0 then none
    else
      var last := calls[|calls| - 1];
      if last.SetDtbAddress? && last.addr != 0 then last.addr else LastAddress(calls[..|calls| - 1], none)
  }

  /** The recorded address is the last nonzero one set: parses never record theirs. */
  lemma {:induction false} AddressAfterRun<C>(info: DtbInfo<C>, calls: seq<Call>, parsed: C)
    ensures Run(info, calls, parsed).physicalAddress == LastAddress(calls, info.physicalAddress)
    decreases |calls|
  {
    if |calls| > 0 {
      var init := calls[..|calls| - 1];
      var last := calls[|calls| - 1];
      assert calls == init + [last];
      RunAppend(info, init, last, parsed);
      AddressAfterRun(info, init, parsed);
    }
  }

  /** Running one more call is applying it to the state the run reached. */
  lemma {:induction false} RunAppend<C>(info: DtbInfo<C>, calls: seq<Call>, c: Call, parsed: C)
    ensures Run(info, calls + [c], parsed) == Run(Run(info, calls, parsed), [c], parsed)
    decreases |calls|
  {
    if |calls| > 0 {
      var next := match calls[0]
        case SetDtbAddress(a) => SetAddress(info, a)
        case ParseDtb(a) => Parsed(info, a, parsed);
      assert (calls + [c])[1..] == calls[1..] + [c];
      RunAppend(next, calls[1..], c, parsed);
    } else {
      assert calls + [c] == [c];
    }
  }
}
