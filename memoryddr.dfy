/**
 * DDR memory-controller driver: type detection and timing read-out from
 * one-byte controller registers, and the two power-mode switches.
 */
module MemoryDdr {
  import opened Prelude
  import opened PlatformGeneric

  const MC_DDR_TYPE_REG: nat := 0x9000
  const MC_TIMING_REG: nat := 0x9004
  const MC_POWER_CTRL_REG: nat := 0x9008

  datatype DdrType = DDR1 | DDR2 | DDR3 | DDR4 | DDR5 | DDR6 | Unknown

  datatype DdrTiming = DdrTiming(ddrType: DdrType, casLatency: Byte, refreshRateMs: nat, totalSizeBytes: nat)

  /** The controller's code for each generation (a reference table; `Unknown` has none). */
  function DdrTypeCode(t: DdrType): (code: Byte)
    requires t != Unknown
    ensures 0x01 <= code <= 0x06
  {
    match t
    case DDR1 => 0x01
    case DDR2 => 0x02
    case DDR3 => 0x03
    case DDR4 => 0x04
    case DDR5 => 0x05
    case DDR6 => 0x06
  }

  function DecodeDdrType(raw: Byte): (t: DdrType)
    ensures t == Unknown <==> !(0x01 <= raw <= 0x06)
  {
    match raw
    case 0x01 => DDR1
    case 0x02 => DDR2
    case 0x03 => DDR3
    case 0x04 => DDR4
    case 0x05 => DDR5
    case 0x06 => DDR6
    case _ => Unknown
  }

  /** Detection inverts the code table: each known generation decodes from exactly its code. */
  lemma DdrTypeCodeRoundTrip(t: DdrType, raw: Byte)
    ensures t != Unknown ==> DecodeDdrType(DdrTypeCode(t)) == t
    ensures DecodeDdrType(raw) != Unknown ==> DdrTypeCode(DecodeDdrType(raw)) == raw
  {
  }

  class DdrMemoryManager {
    var typeReg: Byte
    var timingReg: Byte
    var powerCtrlReg: Byte

    constructor (typeValue: Byte, timingValue: Byte, powerValue: Byte)
      ensures typeReg == typeValue && timingReg == timingValue && powerCtrlReg == powerValue
    {
      typeReg := typeValue;
      timingReg := timingValue;
      powerCtrlReg := powerValue;
    }

    function DetectDdrType(): (t: DdrType)
      reads this
      ensures t == Unknown <==> !(0x01 <= typeReg <= 0x06)
      ensures t != Unknown ==> DdrTypeCode(t) == typeReg
    {
      DecodeDdrType(typeReg)
    }

    /**
     * Fails with platform error 1 on an unknown part; otherwise the CAS
     * latency is the raw timing byte, refresh is 64 ms and the size 512 MiB.
     */
    function ReadTimingParameters(): (r: Result<DdrTiming, KernelError>)
      reads this
      ensures r.Err? <==> DetectDdrType() == Unknown
      ensures r.Err? ==> r.error == PlatformSpecificError(0x01)
      ensures r.Ok? ==> r.value == DdrTiming(DetectDdrType(), timingReg, 64, 512 * 1024 * 1024)
    {
      var ddrType := DetectDdrType();
      if ddrType == Unknown then Err(PlatformSpecificError(0x01))
      else Ok(DdrTiming(ddrType, timingReg, 64, 512 * 1024 * 1024))
    }

    method SetLowPowerMode() returns (r: Result<(), KernelError>)
      modifies this
      ensures r == Ok(()) && powerCtrlReg == 0x01
      ensures typeReg == old(typeReg) && timingReg == old(timingReg)
    {
      powerCtrlReg := 0x01;
      r := Ok(());
    }

    method SetNormalMode() returns (r: Result<(), KernelError>)
      modifies this
      ensures r == Ok(()) && powerCtrlReg == 0x00
      ensures typeReg == old(typeReg) && timingReg == old(timingReg)
    {
      powerCtrlReg := 0x00;
      r := Ok(());
    }
  }
}
