/** The M5Stack PaperS3 power device: battery voltage and charge level come from a
    sampling helper, and charge detection reads a second ADC channel whose voltage rises
    above 150 mV while the battery charges. ADC results are parameters. */
module PaperS3Power {

  type Uint8 = x: int | 0 <= x < 0x100
  type Uint32 = x: int | 0 <= x < 0x1_0000_0000

  /** The metrics this device reports by name; every other metric of the power interface
      is OtherMetric. */
  datatype MetricType = IsCharging | BatteryVoltage | ChargeLevel | OtherMetric(name: string)

  /** The union a metric is written into, by the member last written. */
  datatype MetricData = Unset | AsBool(b: bool) | AsUint8(u8: Uint8) | AsUint32(u32: Uint32)

  /** ADC operations on the shared unit, in order. */
  datatype AdcCall = ConfigChargeChannel | ReadChargeChannel | ReadBatterySampled

  /** Millivolts above which the charge status line means "charging". */
  const CHARGING_VOLTAGE_THRESHOLD_MV: int := 150

  /** C's int division, which truncates toward zero. */
  function CDiv(a: int, b: int): (q: int)
    requires b > 0
    ensures a >= 0 ==> q == a / b
    ensures a < 0 ==> q <= 0 && q * b >= a > (q - 1) * b
  {
    if a >= 0 then a / b else -((-a) / b)
  }

  /** The charge status channel's reading in millivolts: 0..4095 spans about 0..3100 mV. */
  function ChargeMillivolts(raw: int): (millivolts: int)
    ensures raw >= 0 ==> millivolts * 4095 <= raw * 3100 < (millivolts + 1) * 4095
    ensures 0 <= raw <= 4095 ==> 0 <= millivolts <= 3100
    ensures raw < 0 ==> millivolts <= 0
  {
    CDiv(raw * 3100, 4095)
  }

  /** The charge decision on a raw reading. */
  predicate ChargingFromRaw(raw: int): (charging: bool)
    ensures charging <==> raw >= 200
  {
    ChargingThreshold(raw);
    ChargeMillivolts(raw) > CHARGING_VOLTAGE_THRESHOLD_MV
  }

  /** The threshold in raw units: 150 mV lies between raw 199 (150 mV after truncation)
      and raw 200 (151 mV), so a reading means charging exactly from 200 up. */
  lemma ChargingThreshold(raw: int)
    ensures ChargeMillivolts(raw) > CHARGING_VOLTAGE_THRESHOLD_MV <==> raw >= 200
  {
    var x := raw * 3100;
    if raw >= 0 {
      var q := x / 4095;
      assert x == q * 4095 + x % 4095 && 0 <= x % 4095 < 4095;
      if raw >= 200 {
        assert x >= 620000;
        assert q > 150;
      } else {
        assert x <= 616900;
        assert q <= 150;
      }
    }
  }

  /** The metrics the device reports. */
  function SupportsMetric(metric: MetricType): (supported: bool)
    ensures supported <==> !metric.OtherMetric?
  {
    match metric
    case IsCharging => true
    case BatteryVoltage => true
    case ChargeLevel => true
    case OtherMetric(_) => false
  }

  class PaperS3Power {
    /** Whether the charge status channel has been configured. */
    var chargeStatusInitialized: bool
    ghost var adc: seq<AdcCall>

    constructor ()
      ensures !chargeStatusInitialized && adc == []
    {
      chargeStatusInitialized := false;
      adc := [];
    }

    /** Configures the charge status channel once; configOk is whether the ADC driver
        accepts the configuration. A failure leaves the flag clear for a later retry. */
    method InitializeChargeStatus(configOk: bool)
      modifies this
      ensures old(chargeStatusInitialized) ==> chargeStatusInitialized && adc == old(adc)
      ensures !old(chargeStatusInitialized) ==>
        chargeStatusInitialized == configOk && adc == old(adc) + [ConfigChargeChannel]
    {
      if chargeStatusInitialized {
        return;
      }
      adc := adc + [ConfigChargeChannel];
      if !configOk {
        return;
      }
      chargeStatusInitialized := true;
    }

    /** Reads the charge status channel, configuring it first if needed. configOk, readOk
        and raw are the ADC driver's answers. */
    method IsChargingNow(configOk: bool, readOk: bool, raw: int) returns (charging: bool)
      modifies this
      ensures chargeStatusInitialized == (old(chargeStatusInitialized) || configOk)
      ensures adc == old(adc) + (if old(chargeStatusInitialized) then [] else [ConfigChargeChannel]) +
                    (if chargeStatusInitialized then [ReadChargeChannel] else [])
      ensures charging <==> chargeStatusInitialized && readOk && raw >= 200
    {
      if !chargeStatusInitialized {
        InitializeChargeStatus(configOk);
        if !chargeStatusInitialized {
          return false;
        }
      }
      adc := adc + [ReadChargeChannel];
      if !readOk {
        return false;
      }
      var voltageMv := CDiv(raw * 3100, 4095);
      ChargingThreshold(raw);
      charging := voltageMv > CHARGING_VOLTAGE_THRESHOLD_MV;
    }

    /** Writes one metric into data. The ADC answers are parameters: configOk, readOk and
        raw for the charge status channel, sampledOk and voltage for the sampled battery
        read, and level for the helper's estimate of the charge level at that voltage. */
    method GetMetric(metric: MetricType, data: MetricData, configOk: bool, readOk: bool, raw: int,
                     sampledOk: bool, voltage: Uint32, level: Uint8)
      returns (ok: bool, written: MetricData)
      modifies this
      ensures ok ==> SupportsMetric(metric)
      ensures !ok ==> written == data
      ensures !SupportsMetric(metric) ==> !ok && unchanged(this)
      ensures metric == IsCharging ==>
        ok && written == AsBool(chargeStatusInitialized && readOk && raw >= 200) &&
        chargeStatusInitialized == (old(chargeStatusInitialized) || configOk) &&
        adc == old(adc) + (if old(chargeStatusInitialized) then [] else [ConfigChargeChannel]) +
                          (if chargeStatusInitialized then [ReadChargeChannel] else [])
      ensures metric == BatteryVoltage ==>
        ok == sampledOk && (ok ==> written == AsUint32(voltage)) && unchanged(this`chargeStatusInitialized) &&
        adc == old(adc) + [ReadBatterySampled]
      ensures metric == ChargeLevel ==>
        ok == sampledOk && (ok ==> written == AsUint8(level)) && unchanged(this`chargeStatusInitialized) &&
        adc == old(adc) + [ReadBatterySampled]
    {
      written := data;
      match metric {
        case IsCharging =>
          var charging := IsChargingNow(configOk, readOk, raw);
          written := AsBool(charging);
          return true, written;
        case BatteryVoltage =>
          adc := adc + [ReadBatterySampled];
          if sampledOk {
            written := AsUint32(voltage);
            return true, written;
          }
          return false, written;
        case ChargeLevel =>
          adc := adc + [ReadBatterySampled];
          if sampledOk {
            written := AsUint8(level);
            return true, written;
          }
          return false, written;
        case OtherMetric(_) =>
          return false, written;
      }
    }
  }
}
