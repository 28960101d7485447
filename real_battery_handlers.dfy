/**
 * The handler for RealBattery part modules. Its power is the module's
 * `lastECpower` field read as a number; a positive power means the battery is
 * charging, that is, consuming electric charge.
 */
module RealBatteryHandlers {
  import opened Wrappers
  import opened DataHandlers

  const LastEcPowerField: string := "lastECpower"

  /**
   * GetPower: the field's text parsed as a number, or 0 when it does not parse
   * (TryParse leaves its out-parameter at 0), scaled by 1. `tryParse` stands for
   * the host's double parser. Reading an absent field yields null, whose
   * ToString raises. The module is only read.
   */
  function GetPower(pm: PartModule, tryParse: string -> Option<real>): (r: Result<real, Fault>)
    ensures r.Failure? <==> LastEcPowerField !in pm.fields
    ensures r.Failure? ==> r.error == NullReference
    ensures r.Success? && tryParse(pm.fields[LastEcPowerField]).None? ==> r.value == 0.0
    ensures r.Success? && tryParse(pm.fields[LastEcPowerField]).Some? ==>
              r.value == tryParse(pm.fields[LastEcPowerField]).value
  {
    if LastEcPowerField !in pm.fields then Failure(NullReference)
    else
      var results := match tryParse(pm.fields[LastEcPowerField])
                     case Some(v) => v
                     case None => 0.0;
      Success(results * 1.0)
  }

  /** The sign convention of this handler: positive power is charging. */
  predicate IsCharging(power: real)
  {
    power > 0.0
  }

  /** Text that fails to parse reads as zero power: neither charging nor discharging. */
  lemma MalformedReadsAsIdle(pm: PartModule, tryParse: string -> Option<real>)
    requires LastEcPowerField in pm.fields
    requires tryParse(pm.fields[LastEcPowerField]).None?
    ensures GetPower(pm, tryParse) == Success(0.0)
    ensures !IsCharging(GetPower(pm, tryParse).value)
  {
  }
}
