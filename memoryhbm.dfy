/**
 * HBM (high-bandwidth memory) controller driver: type detection,
 * configuration read-out, stack enabling and the ultra-low-power switch.
 */
module MemoryHbm {
  import opened Prelude
  import opened PlatformGeneric

  const HBM_TYPE_REG: nat := 0xB000
  const HBM_CONFIG_REG: nat := 0xB004
  const HBM_STACK_CTRL_REG: nat := 0xB008

  const U32_LIMIT: nat := 0x1_0000_0000

  datatype HbmType = HBM1 | HBM2 | HBM2E | HBM3 | HBM3E | Unknown

  datatype HbmConfig = HbmConfig(hbmType: HbmType, peakBandwidthGbs: nat, numStacks: nat,
                                 stackSizeBytes: nat, averageLatencyNs: nat)

  /** The controller's code for each generation (a reference table; `Unknown` has none). */
  function HbmTypeCode(t: HbmType): (code: Byte)
    requires t != Unknown
    ensures 0x1 <= code <= 0x5
  {
    match t
    case HBM1 => 0x1
    case HBM2 => 0x2
    case HBM2E => 0x3
    case HBM3 => 0x4
    case HBM3E => 0x5
  }

  function DecodeHbmType(raw: Byte): (t: HbmType)
    ensures t == Unknown <==> !(0x1 <= raw <= 0x5)
  {
    match raw
    case 0x1 => HBM1
    case 0x2 => HBM2
    case 0x3 => HBM2E
    case 0x4 => HBM3
    case 0x5 => HBM3E
    case _ => Unknown
  }

  /** Detection inverts the code table: each known generation decodes from exactly its code. */
  lemma HbmTypeCodeRoundTrip(t: HbmType, raw: Byte)
    ensures t != Unknown ==> DecodeHbmType(HbmTypeCode(t)) == t
    ensures DecodeHbmType(raw) != Unknown ==> HbmTypeCode(DecodeHbmType(raw)) == raw
  {
  }

  /** The stack-access command: bit 7 starts access, the low bits carry the stack id. */
  function StackAccessCommand(stackId: Byte): (cmd: Byte)
    ensures cmd & 0x80 == 0x80
    ensures cmd & 0x7F == stackId & 0x7F
  {
    0x80 | stackId
  }

  class HbmMemoryManager {
    var typeReg: Byte
    var configReg: Byte
    var stackCtrlReg: Byte

    constructor (typeValue: Byte, configValue: Byte, stackCtrlValue: Byte)
      ensures typeReg == typeValue && configReg == configValue && stackCtrlReg == stackCtrlValue
    {
      typeReg := typeValue;
      configReg := configValue;
      stackCtrlReg := stackCtrlValue;
    }

    function DetectHbmType(): (t: HbmType)
      reads this
      ensures t == Unknown <==> !(0x1 <= typeReg <= 0x5)
      ensures t != Unknown ==> HbmTypeCode(t) == typeReg
    {
      DecodeHbmType(typeReg)
    }

    /**
     * Fails with platform error 3 on an unknown part; otherwise the peak
     * bandwidth is 50 times the raw configuration byte (at most 12750), with
     * 4 stacks of 2 GiB and a 50 ns average latency.
     */
    function ReadConfiguration(): (r: Result<HbmConfig, KernelError>)
      reads this
      ensures r.Err? <==> DetectHbmType() == Unknown
      ensures r.Err? ==> r.error == PlatformSpecificError(0x03)
      ensures r.Ok? ==> r.value.hbmType == DetectHbmType()
                        && r.value.peakBandwidthGbs == configReg as nat * 50
                        && r.value.peakBandwidthGbs <= 12750 < U32_LIMIT
                        && r.value.numStacks == 4
                        && r.value.stackSizeBytes == 2 * 1024 * 1024 * 1024
                        && r.value.averageLatencyNs == 50
    {
      var hbmType := DetectHbmType();
      if hbmType == Unknown then Err(PlatformSpecificError(0x03))
      else
        var peak := configReg as nat * 50;
        Ok(HbmConfig(hbmType, peak, 4, 2 * 1024 * 1024 * 1024, 50))
    }

    method EnableStackAccess(stackId: Byte) returns (r: Result<(), KernelError>)
      modifies this
      ensures r == Ok(()) && stackCtrlReg == StackAccessCommand(stackId)
      ensures typeReg == old(typeReg) && configReg == old(configReg)
    {
      var accessCommand := 0x80 | stackId;
      stackCtrlReg := accessCommand;
      r := Ok(());
    }

    /**
     * Writes 1 to the configuration register (not the stack-control one), so
     * a later configuration read of a known part reports 50 GB/s peak.
     */
    method SetUltraLowPowerMode() returns (r: Result<(), KernelError>)
      modifies this
      ensures r == Ok(()) && configReg == 0x01
      ensures typeReg == old(typeReg) && stackCtrlReg == old(stackCtrlReg)
      ensures ReadConfiguration().Ok? ==> ReadConfiguration().value.peakBandwidthGbs == 50
    {
      configReg := 0x01;
      r := Ok(());
    }
  }
}
