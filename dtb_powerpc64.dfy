/**
 * The powerpc64 device-tree parser. `parse_dtb` records a fixed configuration:
 * the UART at 0x8000_03F8,
 * RAM of 4096 * 1024 * 1024 bytes from 0x0000_0000,
 * the interrupt controller at 0x8001_0000,
 * whenever the address it is given is not 0.
 */
module DtbPowerpc64 {
  import opened Prelude
  import opened Dtb

  /** `HardwareConfig`. */
  datatype HardwareConfig = HardwareConfig(consoleAddr: U64, ramStart: U64, ramSize: U64, interruptControllerAddr: U64)

  /** The configuration `parse_dtb` returns for any nonzero address. */
  const SIMULATED: HardwareConfig := HardwareConfig(0x8000_03F8, 0x0000_0000, 4096 * 1024 * 1024, 0x8001_0000)

  /** An address within the RAM the configuration describes. */
  predicate InRam(c: HardwareConfig, addr: U64)
  {
    c.ramStart <= addr < c.ramStart + c.ramSize
  }

  /**
   * The RAM range fits in 64 bits, but it covers the whole low 4 GiB, so
   * both device addresses of the configuration lie inside it.
   */
  lemma DevicesInsideRam()
    ensures SIMULATED.ramStart + SIMULATED.ramSize <= U64_LIMIT
    ensures InRam(SIMULATED, SIMULATED.consoleAddr)
    ensures InRam(SIMULATED, SIMULATED.interruptControllerAddr)
  {
  }

  /**
   * `DtbParser` over the static `DTB_INFO`: the recorded address and the
   * parsed configuration.
   */
  class DtbParser {
    var physicalAddress: U64
    var config: Option<HardwareConfig>

    function Info(): DtbInfo<HardwareConfig>
      reads this
    {
      DtbInfo(physicalAddress, config)
    }

    /** `DTB_INFO`'s initial value. */
    constructor ()
      ensures Info() == Initial()
    {
      physicalAddress := 0;
      config := None;
    }

    /** `set_dtb_address`. */
    method SetDtbAddress(addr: U64)
      modifies this
      ensures Info() == SetAddress(old(Info()), addr)
    {
      if addr != 0 {
        physicalAddress := addr;
      }
    }

    /** `parse_dtb`. */
    method ParseDtb(dtbAddr: U64) returns (r: Result<HardwareConfig, DtbError>)
      modifies this
      ensures r == ParseResult(dtbAddr, SIMULATED)
      ensures Info() == Parsed(old(Info()), dtbAddr, SIMULATED)
    {
      if dtbAddr == 0 {
        return Err(DtbNotFound);
      }
      var c := HardwareConfig(0x8000_03F8, 0x0000_0000, 4096 * 1024 * 1024, 0x8001_0000);
      config := Some(c);
      return Ok(c);
    }

    /** `get_config`. */
    method GetConfig() returns (r: Result<HardwareConfig, DtbError>)
      ensures r == Dtb.GetConfig(Info())
    {
      if config.Some? {
        r := Ok(config.value);
      } else {
        r := Err(ConfigurationNotParsed);
      }
    }
  }
}
