/** Analog measurements (Sensor/analog.c): the ADC's DMA fills one 16-bit
    conversion slot per channel, and after each conversion sequence the
    slots are scaled into physical values kept in one measurement record. */
module Analog {
  import opened CTypes

  /** ADCHType: the channels in conversion order; each one's value is the
      index of its slot. */
  datatype Channel = LightSensor | Vbat | Icharge | Temp | Vrefint
  {
    function Slot(): (i: nat)
      ensures i < ChannelCount
    {
      match this
      case LightSensor => 0
      case Vbat => 1
      case Icharge => 2
      case Temp => 3
      case Vrefint => 4
    }
  }

  /** ADCH_COUNT */
  const ChannelCount: nat := 5

  /** AnalogMeasurementsType (all fields int32_t). */
  datatype Measurements = Measurements(
    vddMv: int, vbatMv: int, ichrgMa: int, ioutMa: int, tempC: int, lightLx: int)

  /** The battery voltage behind the 130k/470k divider. */
  function BatteryMv(extMv: int): (r: int)
    ensures extMv >= 0 ==> 470 * r <= 600 * extMv < 470 * r + 470
    ensures extMv < 0 ==> 470 * r - 470 < 600 * extMv <= 470 * r
  {
    CDiv(extMv * (130 + 470), 470)
  }

  /** The charge current from the sense voltage, in mA. */
  function ChargeMa(extMv: int): (r: int)
    ensures extMv >= 0 ==> 102 * r <= 54 * extMv < 102 * r + 102
    ensures extMv < 0 ==> 102 * r - 102 < 54 * extMv <= 102 * r
  {
    CDiv(extMv * 54, 102)
  }

  /** The illuminance from the light sensor voltage, in lux. */
  function LightLx(extMv: int): (r: int)
    ensures extMv >= 0 ==> 30 * r <= 5 * extMv < 30 * r + 30
    ensures extMv < 0 ==> 30 * r - 30 < 5 * extMv <= 30 * r
  {
    CDiv(extMv * 5, 30)
  }

  /** Each scaling keeps the order of its input. */
  lemma ScalingsAreMonotonic(a: int, b: int)
    requires 0 <= a <= b
    ensures BatteryMv(a) <= BatteryMv(b) && ChargeMa(a) <= ChargeMa(b) && LightLx(a) <= LightLx(b)
  {
    assert 470 * BatteryMv(a) <= 600 * a <= 600 * b < 470 * BatteryMv(b) + 470;
    assert 102 * ChargeMa(a) <= 54 * a <= 54 * b < 102 * ChargeMa(b) + 102;
    assert 30 * LightLx(a) <= 5 * a <= 5 * b < 30 * LightLx(b) + 30;
  }

  /** The module's static state: the DMA target `conversions`, the
      `measurements` record and whether the trigger timer runs. */
  class AnalogUnit {
    const conversions: array<U16>
    var measurements: Measurements
    var triggerRunning: bool

    ghost predicate Valid()
      reads this
    {
      conversions.Length == ChannelCount
    }

    constructor ()
      ensures Valid() && fresh(conversions)
      ensures conversions[..] == [0, 0, 0, 0, 0]
      ensures measurements == Measurements(0, 0, 0, 0, 0, 0) && !triggerRunning
    {
      conversions := new U16[ChannelCount](_ => 0);
      measurements := Measurements(0, 0, 0, 0, 0, 0);
      triggerRunning := false;
    }

    /** The conversion slot of a channel. */
    function Sample(ch: Channel): (sample: U16)
      reads this, conversions
      requires Valid()
    {
      conversions[ch.Slot()]
    }

    /** Analog_GetValues: a read of the one measurement record every reader
        shares; the readers' contracts state their results in terms of
        `measurements`. */
    function GetValues(): (m: Measurements)
      reads this
    {
      measurements
    }

    /** The ADC's DMA completed a conversion sequence into the slots. */
    method StoreConversions(samples: seq<U16>)
      requires Valid() && |samples| == ChannelCount
      modifies conversions
      ensures conversions[..] == samples
    {
      forall i | 0 <= i < ChannelCount {
        conversions[i] := samples[i];
      }
    }

    /** analogConvertMeasured: the driver's calibrated conversions
        (ADC_lCalcVDDA_mV, ADC_lCalcTemp_C, ADC_lCalcExt_mV) are inputs. */
    method ConvertMeasured(calcVddaMv: U16 -> int, calcTempC: U16 -> int, calcExtMv: U16 -> int)
      requires Valid()
      modifies this`measurements
      ensures measurements.vddMv == calcVddaMv(Sample(Vrefint))
      ensures measurements.tempC == calcTempC(Sample(Temp))
      ensures measurements.vbatMv == BatteryMv(calcExtMv(Sample(Vbat)))
      ensures measurements.ichrgMa == ChargeMa(calcExtMv(Sample(Icharge)))
      ensures measurements.lightLx == LightLx(calcExtMv(Sample(LightSensor)))
      ensures measurements.ioutMa == old(measurements.ioutMa)
    {
      measurements := measurements.(vddMv := calcVddaMv(conversions[Vrefint.Slot()]));
      measurements := measurements.(tempC := calcTempC(conversions[Temp.Slot()]));
      measurements := measurements.(vbatMv := CDiv(calcExtMv(conversions[Vbat.Slot()]) * (130 + 470), 470));
      measurements := measurements.(ichrgMa := CDiv(calcExtMv(conversions[Icharge.Slot()]) * 54, 102));
      measurements := measurements.(lightLx := CDiv(calcExtMv(conversions[LightSensor.Slot()]) * 5, 30));
    }

    /** Analog_Halt */
    method Halt()
      modifies this`triggerRunning
      ensures !triggerRunning
    {
      triggerRunning := false;
    }

    /** Analog_Resume */
    method Resume()
      modifies this`triggerRunning
      ensures triggerRunning
    {
      triggerRunning := true;
    }
  }

  /** The channel converted into slot `i`. */
  function ChannelOf(i: nat): (ch: Channel)
    requires i < ChannelCount
    ensures ch.Slot() == i
  {
    [LightSensor, Vbat, Icharge, Temp, Vrefint][i]
  }

  /** The channels occupy the slots 0..4, one each: no two share a slot. */
  lemma SlotsAreDistinct(a: Channel, b: Channel)
    ensures a.Slot() == b.Slot() <==> a == b
    ensures ChannelOf(a.Slot()) == a
  {
  }
}
