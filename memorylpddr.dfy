/**
 * LPDDR (low-power DDR) controller driver: type detection, configuration
 * read-out and the deep-sleep and power-down switches.
 */
module MemoryLpddr {
  import opened Prelude
  import opened PlatformGeneric

  const LPDDR_TYPE_REG: nat := 0xC000
  const LPDDR_CONFIG_REG: nat := 0xC004
  const LPDDR_POWER_CTRL_REG: nat := 0xC008

  const U16_LIMIT: nat := 0x1_0000

  datatype LpddrType = LPDDR1 | LPDDR2 | LPDDR3 | LPDDR4 | LPDDR4X | LPDDR5 | LPDDR6 | Unknown

  datatype LpddrConfig = LpddrConfig(lpddrType: LpddrType, idlePowerMw: nat, wakeUpLatencyNs: nat, totalSizeBytes: nat)

  /** The controller's code for each generation (a reference table; `Unknown` has none). */
  function LpddrTypeCode(t: LpddrType): (code: Byte)
    requires t != Unknown
    ensures 0x1 <= code <= 0x7
  {
    match t
    case LPDDR1 => 0x1
    case LPDDR2 => 0x2
    case LPDDR3 => 0x3
    case LPDDR4 => 0x4
    case LPDDR4X => 0x5
    case LPDDR5 => 0x6
    case LPDDR6 => 0x7
  }

  function DecodeLpddrType(raw: Byte): (t: LpddrType)
    ensures t == Unknown <==> !(0x1 <= raw <= 0x7)
  {
    match raw
    case 0x1 => LPDDR1
    case 0x2 => LPDDR2
    case 0x3 => LPDDR3
    case 0x4 => LPDDR4
    case 0x5 => LPDDR4X
    case 0x6 => LPDDR5
    case 0x7 => LPDDR6
    case _ => Unknown
  }

  /** Detection inverts the code table: each known generation decodes from exactly its code. */
  lemma LpddrTypeCodeRoundTrip(t: LpddrType, raw: Byte)
    ensures t != Unknown ==> DecodeLpddrType(LpddrTypeCode(t)) == t
    ensures DecodeLpddrType(raw) != Unknown ==> LpddrTypeCode(DecodeLpddrType(raw)) == raw
  {
  }

  class LpddrMemoryManager {
    var typeReg: Byte
    var configReg: Byte
    var powerCtrlReg: Byte

    constructor (typeValue: Byte, configValue: Byte, powerValue: Byte)
      ensures typeReg == typeValue && configReg == configValue && powerCtrlReg == powerValue
    {
      typeReg := typeValue;
      configReg := configValue;
      powerCtrlReg := powerValue;
    }

    function DetectLpddrType(): (t: LpddrType)
      reads this
      ensures t == Unknown <==> !(0x1 <= typeReg <= 0x7)
      ensures t != Unknown ==> LpddrTypeCode(t) == typeReg
    {
      DecodeLpddrType(typeReg)
    }

    /**
     * Fails with platform error 4 on an unknown part; otherwise the idle power
     * is ten times the raw byte (at most 2550, so it fits a u16), the wake-up
     * latency 200 ns and the size 1 GiB.
     */
    function ReadConfiguration(): (r: Result<LpddrConfig, KernelError>)
      reads this
      ensures r.Err? <==> DetectLpddrType() == Unknown
      ensures r.Err? ==> r.error == PlatformSpecificError(0x04)
      ensures r.Ok? ==> r.value.lpddrType == DetectLpddrType()
                        && r.value.idlePowerMw == configReg as nat * 10
                        && r.value.idlePowerMw <= 2550 < U16_LIMIT
                        && r.value.wakeUpLatencyNs == 200
                        && r.value.totalSizeBytes == 1024 * 1024 * 1024
    {
      var lpddrType := DetectLpddrType();
      if lpddrType == Unknown then Err(PlatformSpecificError(0x04))
      else
        var idlePower := configReg as nat * 10;
        Ok(LpddrConfig(lpddrType, idlePower, 200, 1 * 1024 * 1024 * 1024))
    }

    method SetDeepSleepMode() returns (r: Result<(), KernelError>)
      modifies this
      ensures r == Ok(()) && powerCtrlReg == 0x03
      ensures typeReg == old(typeReg) && configReg == old(configReg)
    {
      powerCtrlReg := 0x03;
      r := Ok(());
    }

    method SetPowerDownMode() returns (r: Result<(), KernelError>)
      modifies this
      ensures r == Ok(()) && powerCtrlReg == 0x01
      ensures typeReg == old(typeReg) && configReg == old(configReg)
    {
      powerCtrlReg := 0x01;
      r := Ok(());
    }
  }
}
