/**
 * GDDR (graphics memory) controller driver: type detection, timing
 * read-out, controller reset, and the accelerator-region hook.
 */
module MemoryGddr {
  import opened Prelude
  import opened PlatformGeneric

  const GM_GDDR_TYPE_REG: nat := 0xA000
  const GM_TIMING_REG: nat := 0xA004
  const GM_RESET_CTRL_REG: nat := 0xA008

  const U32_LIMIT: nat := 0x1_0000_0000

  datatype GddrType = GDDR1 | GDDR2 | GDDR3 | GDDR4 | GDDR5 | GDDR5X | GDDR6 | GDDR7 | Unknown

  datatype GddrTiming = GddrTiming(gddrType: GddrType, bandwidthGbs: nat, clockRateMhz: nat, totalSizeBytes: nat)

  /** The controller's code for each generation (a reference table; `Unknown` has none). */
  function GddrTypeCode(t: GddrType): (code: Byte)
    requires t != Unknown
    ensures 0x1 <= code <= 0x8
  {
    match t
    case GDDR1 => 0x1
    case GDDR2 => 0x2
    case GDDR3 => 0x3
    case GDDR4 => 0x4
    case GDDR5 => 0x5
    case GDDR5X => 0x6
    case GDDR6 => 0x7
    case GDDR7 => 0x8
  }

  function DecodeGddrType(raw: Byte): (t: GddrType)
    ensures t == Unknown <==> !(0x1 <= raw <= 0x8)
  {
    match raw
    case 0x1 => GDDR1
    case 0x2 => GDDR2
    case 0x3 => GDDR3
    case 0x4 => GDDR4
    case 0x5 => GDDR5
    case 0x6 => GDDR5X
    case 0x7 => GDDR6
    case 0x8 => GDDR7
    case _ => Unknown
  }

  /** Detection inverts the code table: each known generation decodes from exactly its code. */
  lemma GddrTypeCodeRoundTrip(t: GddrType, raw: Byte)
    ensures t != Unknown ==> DecodeGddrType(GddrTypeCode(t)) == t
    ensures DecodeGddrType(raw) != Unknown ==> GddrTypeCode(DecodeGddrType(raw)) == raw
  {
  }

  class GddrMemoryManager {
    var typeReg: Byte
    var timingReg: Byte
    var resetCtrlReg: Byte

    constructor (typeValue: Byte, timingValue: Byte, resetValue: Byte)
      ensures typeReg == typeValue && timingReg == timingValue && resetCtrlReg == resetValue
    {
      typeReg := typeValue;
      timingReg := timingValue;
      resetCtrlReg := resetValue;
    }

    function DetectGddrType(): (t: GddrType)
      reads this
      ensures t == Unknown <==> !(0x1 <= typeReg <= 0x8)
      ensures t != Unknown ==> GddrTypeCode(t) == typeReg
    {
      DecodeGddrType(typeReg)
    }

    /**
     * Fails with platform error 2 on an unknown part; otherwise the bandwidth
     * is ten times the raw byte (so it fits a u32), at 1000 MHz and 256 MiB.
     */
    function ReadTimingParameters(): (r: Result<GddrTiming, KernelError>)
      reads this
      ensures r.Err? <==> DetectGddrType() == Unknown
      ensures r.Err? ==> r.error == PlatformSpecificError(0x02)
      ensures r.Ok? ==> r.value.gddrType == DetectGddrType()
                        && r.value.bandwidthGbs == timingReg as nat * 10
                        && r.value.bandwidthGbs <= 2550 < U32_LIMIT
                        && r.value.clockRateMhz == 1000
                        && r.value.totalSizeBytes == 256 * 1024 * 1024
    {
      var gddrType := DetectGddrType();
      if gddrType == Unknown then Err(PlatformSpecificError(0x02))
      else
        var bandwidth := timingReg as nat * 10;
        Ok(GddrTiming(gddrType, bandwidth, 1000, 256 * 1024 * 1024))
    }

    method ResetMemoryController() returns (r: Result<(), KernelError>)
      modifies this
      ensures r == Ok(()) && resetCtrlReg == 0x01
      ensures typeReg == old(typeReg) && timingReg == old(timingReg)
    {
      resetCtrlReg := 0x01;
      r := Ok(());
    }

    /** Reserved for marking a region for accelerator use; it accepts every request and changes nothing. */
    method MarkForAccelerator(address: U64, size: U64) returns (r: Result<(), KernelError>)
      ensures r == Ok(())
    {
      r := Ok(());
    }
  }
}
