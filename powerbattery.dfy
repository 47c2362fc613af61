/**
 * Power and battery management through three one-byte device registers:
 * the battery level (read), the power source (read) and the power-level
 * control register (written and read back).
 */
module PowerBattery {
  import opened Prelude
  import opened PlatformGeneric

  const BATTERY_LEVEL_REG_ADDR: nat := 0x8000
  const POWER_SOURCE_REG_ADDR: nat := 0x8004
  const POWER_LEVEL_CTRL_ADDR: nat := 0x8008

  datatype BatteryState = Unknown | Charging | Discharging | Full

  datatype PowerSource = AcAdapter | Battery

  datatype PowerLevel = Performance | Normal | PowerSave

  /** A battery reading is a percentage; anything above 100 is rejected. */
  function DecodeBatteryLevel(raw: Byte): (r: Option<Byte>)
    ensures r.Some? <==> raw <= 100
    ensures r.Some? ==> r.value == raw
  {
    if raw <= 100 then Some(raw) else None
  }

  /** Only 0x01 means mains power; 0x02 and every unknown byte fall back to the battery. */
  function DecodePowerSource(raw: Byte): (s: PowerSource)
    ensures s == AcAdapter <==> raw == 0x01
  {
    match raw
    case 0x01 => AcAdapter
    case 0x02 => Battery
    case _ => Battery
  }

  /** The control byte written for each power level. */
  function EncodePowerLevel(level: PowerLevel): (b: Byte)
    ensures 0x01 <= b <= 0x03
  {
    match level
    case Performance => 0x03
    case Normal => 0x02
    case PowerSave => 0x01
  }

  /** Reading the control register back; an unrecognised byte reads as `Normal`. */
  function DecodePowerLevel(raw: Byte): (level: PowerLevel)
    ensures raw !in {0x01, 0x02, 0x03} ==> level == Normal
  {
    match raw
    case 0x03 => Performance
    case 0x02 => Normal
    case 0x01 => PowerSave
    case _ => Normal
  }

  /** Decoding the byte written for a level gives that level back. */
  lemma PowerLevelRoundTrip(level: PowerLevel)
    ensures DecodePowerLevel(EncodePowerLevel(level)) == level
  {
  }

  /** Every valid control byte is the encoding of the level it decodes to. */
  lemma PowerLevelCodesAreCanonical(raw: Byte)
    requires 0x01 <= raw <= 0x03
    ensures EncodePowerLevel(DecodePowerLevel(raw)) == raw
  {
  }

  /** The three registers the power manager reads and writes. */
  class PowerBatteryManager {
    var batteryLevelReg: Byte
    var powerSourceReg: Byte
    var powerLevelCtrl: Byte

    constructor (batteryLevel: Byte, powerSource: Byte, powerLevel: Byte)
      ensures batteryLevelReg == batteryLevel && powerSourceReg == powerSource && powerLevelCtrl == powerLevel
    {
      batteryLevelReg := batteryLevel;
      powerSourceReg := powerSource;
      powerLevelCtrl := powerLevel;
    }

    function GetBatteryLevel(): (r: Option<Byte>)
      reads this
      ensures r.Some? <==> batteryLevelReg <= 100
      ensures r.Some? ==> r.value == batteryLevelReg
    {
      DecodeBatteryLevel(batteryLevelReg)
    }

    function GetPowerSource(): (s: PowerSource)
      reads this
      ensures s == AcAdapter <==> powerSourceReg == 0x01
    {
      DecodePowerSource(powerSourceReg)
    }

    method SetPowerLevel(level: PowerLevel) returns (r: Result<(), KernelError>)
      modifies this
      ensures r == Ok(())
      ensures powerLevelCtrl == EncodePowerLevel(level)
      ensures batteryLevelReg == old(batteryLevelReg) && powerSourceReg == old(powerSourceReg)
      ensures GetCurrentPowerLevel() == level
    {
      powerLevelCtrl := EncodePowerLevel(level);
      PowerLevelRoundTrip(level);
      r := Ok(());
    }

    function GetCurrentPowerLevel(): (level: PowerLevel)
      reads this
      ensures powerLevelCtrl !in {0x01, 0x02, 0x03} ==> level == Normal
      ensures powerLevelCtrl in {0x01, 0x02, 0x03} ==> EncodePowerLevel(level) == powerLevelCtrl
    {
      DecodePowerLevel(powerLevelCtrl)
    }
  }
}
