/** The power supply and battery charger HID interface (Charger/chrg_if.c):
    feature reports that read and set the output voltage, the charge
    current and the battery capacity, and the periodic IN reports of the
    battery state and the output current. */
module ChargerIf {
  import opened CTypes
  import opened Analog
  import opened ChargerCtrl
  import Pacing

  /** LiCharged_mV and LiDischarge_mV */
  const LiChargedMv: nat := 4200
  const LiDischargeMv: nat := 2900

  /** The voltage of the USB input, as the feature report #1 states it. */
  const UsbInputMv: U16 := 5000

  /** The hardware revision from which the output can be switched off. */
  const SwitchableOutputRev: nat := 0xA

  /** OutputVoltageType; `VoutOff` exists only on revisions above 0xA. */
  datatype OutputVoltage = VoutOff | Vout3V3 | Vout5V

  /** The `out` part of the feature report #2. */
  datatype OutSettings = OutSettings(mV: U16, used: Bit, buck: Bit)

  /** The status bits of the IN report #4. */
  datatype BatteryFlags = BatteryFlags(charged: Bit, discharged: Bit, present: Bit, overheat: Bit)

  /** `battery.b = 0`: every status bit cleared. */
  const NoFlags := BatteryFlags(0, 0, 0, 0)

  /** The `battery` part of the IN report #4. */
  datatype BatteryInput = BatteryInput(mV: U16, mA: U16, remcap: U16, flags: BatteryFlags)

  /** A feature report, by its report ID (the first data byte). */
  datatype Feature =
    | UsbFeature(usbMv: U16)              // ID 1
    | OutFeature(out: OutSettings)        // ID 2
    | ChargerFeature(chargerMa: U16)      // ID 3
    | BatteryFeature(capacity: U16)       // ID 4
    | UnknownFeature(id: U8)

  /** USBD_HID_ReportType as far as the interface tells it apart. */
  datatype ReportKind = InputKind | FeatureKind

  /** A report handed to USBD_HID_ReportIn. */
  datatype Sent =
    | OutputInput(mA: U16)                // IN report #2
    | BatteryReport(battery: BatteryInput) // IN report #4
    | FeatureSent(feature: Feature)

  /** The charge currents `chrg_ftCharger` can hold. */
  function Milliamps(level: ChargeCurrent): (mA: U16)
  {
    match level
    case Ichg0mA => 0
    case Ichg100mA => 100
    case Ichg500mA => 500
    case Ichg800mA => 800
  }

  /** Charger_SetChargerReport's rounding: the level it selects for a
      requested current, and the current it stores. */
  function RoundedCharge(mA: U16): (r: (ChargeCurrent, U16))
    ensures r.1 == Milliamps(r.0)
    ensures mA <= 800 ==> mA <= r.1
    ensures forall c: ChargeCurrent :: mA <= Milliamps(c) ==> r.1 <= Milliamps(c)
    ensures mA > 800 ==> r.0 == Ichg800mA
    ensures r.0 == Ichg0mA <==> mA == 0
  {
    if mA > 500 then (Ichg800mA, 800)
    else if mA > 100 then (Ichg500mA, 500)
    else if mA > 0 then (Ichg100mA, 100)
    else (Ichg0mA, 0)
  }

  /** A stored current, sent back as a request, selects the same level. */
  lemma RoundingIsIdempotent(mA: U16)
    ensures RoundedCharge(RoundedCharge(mA).1) == RoundedCharge(mA)
  {
  }

  /** A larger request never selects a smaller current. */
  lemma RoundingIsMonotonic(a: U16, b: U16)
    requires a <= b
    ensures RoundedCharge(a).1 <= RoundedCharge(b).1
  {
  }

  /** Charger_SetOutReport's decision: the voltage requested from the output
      stage and the settings stored in `chrg_ftOut`. */
  function OutSelection(request: OutSettings, vddMv: int, hwRev: nat): (r: (OutputVoltage, OutSettings))
    ensures r.0 == VoutOff <==> hwRev > SwitchableOutputRev && request.used == 0
    ensures r.0 == Vout5V <==> r.0 != VoutOff && request.mV > 4500 && request.buck == 0
    ensures r.1.used == 0 <==> r.0 == VoutOff
    ensures r.1.buck == 1 <==> r.0 == Vout3V3
    ensures r.0 == VoutOff ==> r.1.mV == 0
    ensures r.0 == Vout5V ==> r.1.mV == 5000
    ensures r.0 == Vout3V3 ==> r.1.mV == ToU16(vddMv)
  {
    if hwRev > SwitchableOutputRev && request.used == 0 then
      (VoutOff, OutSettings(0, 0, 0))
    else if request.mV > 4500 && request.buck == 0 then
      (Vout5V, OutSettings(5000, 1, 0))
    else
      (Vout3V3, OutSettings(ToU16(vddMv), 1, 1))
  }

  /** Charger_GetReport's refresh of `chrg_ftOut` from the output voltage the
      output stage reports; `used` is kept. */
  function OutReadback(conf: OutputVoltage, vddMv: int, hwRev: nat, out: OutSettings): (r: OutSettings)
    requires hwRev <= SwitchableOutputRev ==> conf != VoutOff
    ensures r.used == out.used
    ensures conf == VoutOff ==> r == out
    ensures conf == Vout5V ==> r.buck == 0 && r.mV == 5000
    ensures conf == Vout3V3 ==> r.buck == 1 && r.mV == ToU16(vddMv)
  {
    if hwRev > SwitchableOutputRev && conf == VoutOff then out
    else if conf == Vout5V then out.(buck := 0, mV := 5000)
    else out.(buck := 1, mV := ToU16(vddMv))
  }

  /** Writing back what was set is a no-op: the stored settings, sent as a
      new request, select the same voltage and store the same settings. */
  lemma OutSelectionIsIdempotent(request: OutSettings, vddMv: int, hwRev: nat)
    ensures var (v, out) := OutSelection(request, vddMv, hwRev);
            OutSelection(out, vddMv, hwRev) == (v, out)
  {
  }

  /** Reading back the settings while the output stage runs the selected
      voltage (and VDD has not moved) leaves them as they were set. */
  lemma ReadbackAgreesWithSelection(request: OutSettings, vddMv: int, hwRev: nat)
    ensures var (v, out) := OutSelection(request, vddMv, hwRev);
            OutReadback(v, vddMv, hwRev, out) == out
  {
  }

  /** The feature report #2 settings describe an output state: with the
      buck converter off the voltage is 0 (off) or 5000 mV. */
  predicate OutConsistent(out: OutSettings)
  {
    out.buck == 0 ==> out.mV == 0 || out.mV == 5000
  }

  /** The linear remaining-capacity estimate, cast to uint16_t as written.
      Between the discharge and the charge voltage it is the design capacity
      scaled by the voltage's position in that range, rounded down, and never
      more than the design capacity. */
  function RemainingCapacity(capacity: U16, mV: U16): (r: U16)
    ensures LiDischargeMv <= mV <= LiChargedMv ==>
              && r <= capacity
              && 1300 * r <= capacity * (mV - LiDischargeMv) < 1300 * r + 1300
  {
    var d := mV - LiDischargeMv;
    var q := CDiv(capacity * d, LiChargedMv - LiDischargeMv);
    if 0 <= d <= 1300 then
      ScaledCapacity(capacity, d);
      ToU16(q)
    else
      ToU16(q)
  }

  /** A product of a non-negative factor and one in [0, bound] lies in [0, factor * bound]. */
  lemma ProductBounds(x: nat, y: int, bound: int)
    requires 0 <= y <= bound
    ensures 0 <= x * y <= x * bound
  {
    assert x * bound - x * y == x * (bound - y);
  }

  /** The capacity scaled by d/1300 for d in [0, 1300] is the rounded-down
      quotient, lies in [0, capacity] and survives the uint16_t cast. */
  lemma ScaledCapacity(capacity: U16, d: int)
    requires 0 <= d <= 1300
    ensures var q := CDiv(capacity * d, 1300);
            && 0 <= q <= capacity && ToU16(q) == q
            && 1300 * q <= capacity * d < 1300 * q + 1300
  {
    ProductBounds(capacity, d, 1300);
  }

  /** The estimate is empty at the discharge voltage and full at the charge voltage. */
  lemma RemainingCapacityEnds(capacity: U16)
    ensures RemainingCapacity(capacity, LiDischargeMv) == 0
    ensures RemainingCapacity(capacity, LiChargedMv) == capacity
  {
    var full := RemainingCapacity(capacity, LiChargedMv);
    assert 1300 * full <= capacity * 1300 < 1300 * full + 1300;
  }

  /** Below the discharge voltage the negative estimate wraps around in the
      uint16_t cast: for any design capacity up to 20000 mAh, a battery
      measurably under 2900 mV reports more than its full capacity. */
  lemma RemainingCapacityWrapsWhenDischarged(capacity: U16, mV: U16)
    requires mV < LiDischargeMv && capacity <= 20000
    requires 1300 <= capacity * (LiDischargeMv - mV)
    ensures RemainingCapacity(capacity, mV) > capacity
  {
    var d := LiDischargeMv - mV;
    ProductBounds(capacity, d, 2900);
    var a := capacity * d;
    assert capacity * (mV - LiDischargeMv) == -a;
    var q := CDiv(-a, 1300);
    assert -44616 < q < 0;
    assert ToU16(q) == q + 0x1_0000;
  }

  /** For example, 2800 mV with a 1000 mAh design capacity reports 65460 mAh. */
  lemma RemainingCapacityWrapExample()
    ensures RemainingCapacity(1000, 2800) == 65460
  {
    assert CDiv(1000 * (2800 - 2900), 1300) == -76;
  }

  /** The battery is reported absent (every bit and the capacity cleared):
      charging is enabled but no current flows and the voltage is the
      charger's own 4.1 V, or charging is disabled and under 2 V is measured. */
  predicate Disconnected(settingMa: U16, mV: U16, mA: U16)
  {
    || (settingMa > 0 && mA == 0 && 4100 < mV < 4170)
    || (settingMa == 0 && mV < 2000)
  }

  /** Charging is enabled, no current flows and a battery is connected. */
  predicate ChargeComplete(settingMa: U16, mV: U16, mA: U16)
  {
    settingMa > 0 && mA == 0 && !(4100 < mV < 4170)
  }

  /** Hot and charging fast: the charge current is cut back to 100 mA. */
  predicate Overheated(settingMa: U16, mA: U16, tempC: int)
  {
    tempC > 50 && settingMa >= 500 && mA > 300
  }

  /** The IN report #4 Charger_SendBatteryReport fills from the charge
      current setting, the measured battery voltage and current (already
      cast to uint16_t), the temperature and the design capacity. */
  function BatteryStatus(settingMa: U16, mV: U16, mA: U16, tempC: int, capacity: U16): (r: BatteryInput)
    ensures r.mV == mV && r.mA == mA
    ensures r.flags.present == 0 <==> Disconnected(settingMa, mV, mA)
    ensures r.flags.present == 0 ==> r.flags == NoFlags && r.remcap == 0
    ensures r.flags.present == 1 ==> r.remcap == RemainingCapacity(capacity, mV)
    ensures r.flags.charged == 1 <==> ChargeComplete(settingMa, mV, mA)
    ensures r.flags.overheat == 1 <==> Overheated(settingMa, mA, tempC)
    ensures r.flags.discharged == 1 <==>
              && !Disconnected(settingMa, mV, mA) && !ChargeComplete(settingMa, mV, mA)
              && !Overheated(settingMa, mA, tempC) && mV < LiDischargeMv
    ensures r.flags.charged + r.flags.discharged + r.flags.overheat <= 1
  {
    var remcap := RemainingCapacity(capacity, mV);
    if settingMa > 0 && mA == 0 then
      if 4100 < mV < 4170 then BatteryInput(mV, mA, 0, NoFlags)
      else BatteryInput(mV, mA, remcap, BatteryFlags(1, 0, 1, 0))
    else if settingMa == 0 && mV < 2000 then
      BatteryInput(mV, mA, 0, NoFlags)
    else if tempC > 50 && settingMa >= 500 && mA > 300 then
      BatteryInput(mV, mA, remcap, BatteryFlags(0, 0, 1, 1))
    else if mV < LiDischargeMv then
      BatteryInput(mV, mA, remcap, BatteryFlags(0, 1, 1, 0))
    else
      BatteryInput(mV, mA, remcap, BatteryFlags(0, 0, 1, 0))
  }

  /** IN report #4 carries the measured battery voltage (Charger_GetVoltage_mV)
      and, while nCHG reads low, the measured charge current
      (Charger_GetCurrent_mA), exactly whenever they fit in uint16_t. */
  lemma ReportCarriesMeasurements(settingMa: U16, m: Measurements, nChg: Bit, capacity: U16)
    ensures var r := BatteryStatus(settingMa, ToU16(GetVoltageMv(m)), ToU16(GetCurrentMa(nChg, m)), m.tempC, capacity);
            && (0 <= m.vbatMv < 0x1_0000 ==> r.mV == m.vbatMv)
            && (nChg == 1 ==> r.mA == 0)
            && (nChg == 0 && 0 <= m.ichrgMa < 0x1_0000 ==> r.mA == m.ichrgMa)
  {
  }

  /** Incrementing a uint8_t flips its lowest bit, also when it wraps. */
  lemma ParityFlips(x: U8)
    ensures ((x + 1) % 0x100) % 2 != x % 2
  {
    if x == 0xFF {
      assert (x + 1) % 0x100 == 0;
    } else {
      assert (x + 1) % 0x100 == x + 1;
    }
  }

  /** The interface's report buffers and static counters, the hardware
      revision it was built for, and the logs of what it asked of the output
      stage (Output_SetVoltage) and of the HID class (USBD_HID_ReportIn). */
  class ChargerInterface {
    const hwRev: nat
    const ctrl: ChargerControl
    const analog: AnalogUnit
    /** chrg_ftOut.out */
    var ftOut: OutSettings
    /** chrg_ftCharger.charger.mA */
    var ftChargerMa: U16
    /** chrg_ftBatt.battery.capacity */
    var ftBattCapacity: U16
    /** chrg_input.battery */
    var input: BatteryInput
    /** vout_input.output.mA */
    var voutInputMa: U16
    /** Charger_Periodic's msCounter and inputsel */
    var msCounter: U8
    var inputSel: U8
    var outputRequests: seq<OutputVoltage>
    var sent: seq<Sent>

    /** What every handler keeps: the charger control reads the same
        measurement record as the interface, the stored charge current is one
        of the four levels, the pacing counter is below the interval, the
        output settings describe an output state, and on revisions that
        cannot switch the output off it stays in use. */
    ghost predicate Valid()
      reads this
    {
      SettingsValid() && msCounter < Pacing.ReportInterval
    }

    /** Valid() without the pacing counter, which Charger_Periodic holds at
        REPORT_INTERVAL while it sends. */
    ghost predicate SettingsValid()
      reads this
    {
      && ctrl.analog == analog
      && ftChargerMa in {0, 100, 500, 800}
      && OutConsistent(ftOut)
      && (hwRev <= SwitchableOutputRev ==> ftOut.used == 1)
    }

    /** The report buffers' static initial values. */
    constructor (hwRev: nat, ctrl: ChargerControl, analog: AnalogUnit)
      requires ctrl.analog == analog
      ensures Valid()
      ensures this.hwRev == hwRev && this.ctrl == ctrl && this.analog == analog
      ensures ftOut == OutSettings(5000, 1, 0) && ftChargerMa == 100 && ftBattCapacity == 0
      ensures input == BatteryInput(0, 0, 0, NoFlags) && voutInputMa == 0
      ensures msCounter == 0 && inputSel == 0 && outputRequests == [] && sent == []
    {
      this.hwRev := hwRev;
      this.ctrl := ctrl;
      this.analog := analog;
      ftOut := OutSettings(5000, 1, 0);
      ftChargerMa := 100;
      ftBattCapacity := 0;
      input := BatteryInput(0, 0, 0, NoFlags);
      voutInputMa := 0;
      msCounter := 0;
      inputSel := 0;
      outputRequests := [];
      sent := [];
    }

    /** Charger_SetOutReport */
    method SetOutReport(request: OutSettings)
      requires Valid()
      modifies this
      ensures Valid()
      ensures var (v, out) := OutSelection(request, analog.measurements.vddMv, hwRev);
              outputRequests == old(outputRequests) + [v] && ftOut == out
      ensures ftChargerMa == old(ftChargerMa) && ftBattCapacity == old(ftBattCapacity)
      ensures input == old(input) && voutInputMa == old(voutInputMa)
      ensures msCounter == old(msCounter) && inputSel == old(inputSel) && sent == old(sent)
    {
      if hwRev > SwitchableOutputRev && request.used == 0 {
        outputRequests := outputRequests + [VoutOff];
        ftOut := ftOut.(mV := 0);
        ftOut := ftOut.(buck := 0);
        ftOut := ftOut.(used := 0);
      } else if request.mV > 4500 && request.buck == 0 {
        outputRequests := outputRequests + [Vout5V];
        ftOut := ftOut.(mV := 5000);
        ftOut := ftOut.(buck := 0);
        ftOut := ftOut.(used := 1);
      } else {
        outputRequests := outputRequests + [Vout3V3];
        ftOut := ftOut.(mV := ToU16(analog.GetValues().vddMv));
        ftOut := ftOut.(buck := 1);
        ftOut := ftOut.(used := 1);
      }
    }

    /** Charger_SetChargerReport */
    method SetChargerReport(mA: U16)
      requires SettingsValid()
      modifies this, ctrl
      ensures SettingsValid()
      ensures var (level, stored) := RoundedCharge(mA);
              && ftChargerMa == stored
              && (ctrl.tsPin, ctrl.iset2) == CurrentPins(level, old(ctrl.iset2))
      ensures ctrl.currentLimit == old(ctrl.currentLimit) && ctrl.ledPin == old(ctrl.ledPin)
      ensures ctrl.voutPin == old(ctrl.voutPin) && ctrl.switchIrqEnabled == old(ctrl.switchIrqEnabled)
      ensures ftOut == old(ftOut) && ftBattCapacity == old(ftBattCapacity)
      ensures input == old(input) && voutInputMa == old(voutInputMa)
      ensures msCounter == old(msCounter) && inputSel == old(inputSel)
      ensures outputRequests == old(outputRequests) && sent == old(sent)
    {
      if mA > 500 {
        ctrl.SetCurrent(Ichg800mA);
        ftChargerMa := 800;
      } else if mA > 100 {
        ctrl.SetCurrent(Ichg500mA);
        ftChargerMa := 500;
      } else if mA > 0 {
        ctrl.SetCurrent(Ichg100mA);
        ftChargerMa := 100;
      } else {
        ctrl.SetCurrent(Ichg0mA);
        ftChargerMa := 0;
      }
    }

    /** Charger_SetBatteryReport */
    method SetBatteryReport(capacity: U16)
      modifies this`ftBattCapacity
      ensures ftBattCapacity == capacity
    {
      ftBattCapacity := capacity;
    }

    /** Charger_SetReport: dispatch on the report ID. */
    method SetReport(report: Feature)
      requires Valid()
      modifies this, ctrl
      ensures Valid()
      ensures report.OutFeature? ==>
                outputRequests == old(outputRequests) + [OutSelection(report.out, analog.measurements.vddMv, hwRev).0]
                && ftOut == OutSelection(report.out, analog.measurements.vddMv, hwRev).1
      ensures report.ChargerFeature? ==>
                ftChargerMa == RoundedCharge(report.chargerMa).1
                && (ctrl.tsPin, ctrl.iset2) == CurrentPins(RoundedCharge(report.chargerMa).0, old(ctrl.iset2))
      ensures report.BatteryFeature? ==> ftBattCapacity == report.capacity
      ensures !report.OutFeature? ==> ftOut == old(ftOut) && outputRequests == old(outputRequests)
      ensures !report.ChargerFeature? ==> ftChargerMa == old(ftChargerMa) && unchanged(ctrl)
      ensures !report.BatteryFeature? ==> ftBattCapacity == old(ftBattCapacity)
      ensures input == old(input) && voutInputMa == old(voutInputMa)
      ensures msCounter == old(msCounter) && inputSel == old(inputSel) && sent == old(sent)
    {
      match report {
        case UsbFeature(_) =>
        case OutFeature(out) =>
          SetOutReport(out);
        case ChargerFeature(mA) =>
          SetChargerReport(mA);
        case BatteryFeature(capacity) =>
          SetBatteryReport(capacity);
        case UnknownFeature(_) =>
      }
    }

    /** Charger_SendOutputReport */
    method SendOutputReport()
      modifies this`voutInputMa, this`sent
      ensures voutInputMa == ToU16(analog.measurements.ioutMa)
      ensures sent == old(sent) + [OutputInput(voutInputMa)]
    {
      voutInputMa := ToU16(analog.GetValues().ioutMa);
      sent := sent + [OutputInput(voutInputMa)];
    }

    /** Charger_SendBatteryReport, with the level of the nCHG status pin. */
    method SendBatteryReport(nChg: Bit)
      requires SettingsValid()
      modifies this, ctrl
      ensures SettingsValid()
      ensures var m := analog.measurements;
              input == BatteryStatus(old(ftChargerMa), ToU16(GetVoltageMv(m)),
                                     ToU16(GetCurrentMa(nChg, m)), m.tempC, ftBattCapacity)
      ensures sent == old(sent) + [BatteryReport(input)]
      ensures Overheated(old(ftChargerMa), input.mA, analog.measurements.tempC) ==>
                && ftChargerMa == 100
                && (ctrl.tsPin, ctrl.iset2) == CurrentPins(Ichg100mA, old(ctrl.iset2))
                && ctrl.currentLimit == old(ctrl.currentLimit) && ctrl.ledPin == old(ctrl.ledPin)
                && ctrl.voutPin == old(ctrl.voutPin) && ctrl.switchIrqEnabled == old(ctrl.switchIrqEnabled)
      ensures !Overheated(old(ftChargerMa), input.mA, analog.measurements.tempC) ==>
                ftChargerMa == old(ftChargerMa) && unchanged(ctrl)
      ensures ftOut == old(ftOut) && ftBattCapacity == old(ftBattCapacity) && voutInputMa == old(voutInputMa)
      ensures msCounter == old(msCounter) && inputSel == old(inputSel) && outputRequests == old(outputRequests)
    {
      var m := analog.GetValues();
      input := input.(mV := ToU16(GetVoltageMv(m)));
      input := input.(mA := ToU16(GetCurrentMa(nChg, m)));

      if ftChargerMa > 0 && input.mA == 0 {
        if 4100 < input.mV < 4170 {
          input := input.(flags := NoFlags, remcap := 0);
        } else {
          input := input.(flags := input.flags.(present := 1, charged := 1, discharged := 0, overheat := 0));
        }
      } else if ftChargerMa == 0 && input.mV < 2000 {
        input := input.(flags := NoFlags, remcap := 0);
      } else {
        input := input.(flags := input.flags.(present := 1, charged := 0));
        if m.tempC > 50 && ftChargerMa >= 500 && input.mA > 300 {
          SetChargerReport(100);
          input := input.(flags := input.flags.(discharged := 0, overheat := 1));
        } else if input.mV < LiDischargeMv {
          input := input.(flags := input.flags.(discharged := 1, overheat := 0));
        } else {
          input := input.(flags := input.flags.(discharged := 0, overheat := 0));
        }
      }

      if input.flags.present != 0 {
        input := input.(remcap := RemainingCapacity(ftBattCapacity, input.mV));
      }
      sent := sent + [BatteryReport(input)];
    }

    /** Charger_GetReport; `conf` is what Output_GetVoltage returns. */
    method GetReport(kind: ReportKind, reportId: U8, conf: OutputVoltage, nChg: Bit)
      requires Valid()
      requires hwRev <= SwitchableOutputRev ==> conf != VoutOff
      modifies this, ctrl
      ensures Valid()
      ensures kind == InputKind && reportId == 2 ==>
                sent == old(sent) + [OutputInput(ToU16(analog.measurements.ioutMa))]
      ensures kind == InputKind && reportId == 4 ==>
                && input == BatteryStatus(old(ftChargerMa), ToU16(GetVoltageMv(analog.measurements)),
                                          ToU16(GetCurrentMa(nChg, analog.measurements)),
                                          analog.measurements.tempC, ftBattCapacity)
                && sent == old(sent) + [BatteryReport(input)]
                && ftChargerMa == (if Overheated(old(ftChargerMa), input.mA, analog.measurements.tempC)
                                   then 100 else old(ftChargerMa))
                && (Overheated(old(ftChargerMa), input.mA, analog.measurements.tempC) ==>
                      (ctrl.tsPin, ctrl.iset2) == CurrentPins(Ichg100mA, old(ctrl.iset2)))
                && (!Overheated(old(ftChargerMa), input.mA, analog.measurements.tempC) ==> unchanged(ctrl))
      ensures kind == InputKind && reportId != 2 && reportId != 4 ==> sent == old(sent)
      ensures kind == FeatureKind && reportId == 1 ==> sent == old(sent) + [FeatureSent(UsbFeature(UsbInputMv))]
      ensures kind == FeatureKind && reportId == 2 ==>
                && ftOut == OutReadback(conf, analog.measurements.vddMv, hwRev, old(ftOut))
                && sent == old(sent) + [FeatureSent(OutFeature(ftOut))]
      ensures kind == FeatureKind && reportId == 3 ==> sent == old(sent) + [FeatureSent(ChargerFeature(ftChargerMa))]
      ensures kind == FeatureKind && reportId == 4 ==> sent == old(sent) + [FeatureSent(BatteryFeature(ftBattCapacity))]
      ensures kind == FeatureKind && !(1 <= reportId <= 4) ==> sent == old(sent)
      ensures !(kind == FeatureKind && reportId == 2) ==> ftOut == old(ftOut)
      ensures !(kind == InputKind && reportId == 4) ==>
                ftChargerMa == old(ftChargerMa) && unchanged(ctrl) && input == old(input)
      ensures !(kind == InputKind && reportId == 2) ==> voutInputMa == old(voutInputMa)
      ensures ftBattCapacity == old(ftBattCapacity) && outputRequests == old(outputRequests)
      ensures msCounter == old(msCounter) && inputSel == old(inputSel)
    {
      if kind == InputKind {
        if reportId == 2 {
          SendOutputReport();
        } else if reportId == 4 {
          SendBatteryReport(nChg);
        }
      } else if reportId == 1 {
        sent := sent + [FeatureSent(UsbFeature(UsbInputMv))];
      } else if reportId == 2 {
        if hwRev > SwitchableOutputRev && conf == VoutOff {
          // not settable by the switch: the stored values stand
        } else if conf == Vout5V {
          ftOut := ftOut.(buck := 0);
          ftOut := ftOut.(mV := 5000);
        } else {
          ftOut := ftOut.(buck := 1);
          ftOut := ftOut.(mV := ToU16(analog.GetValues().vddMv));
        }
        sent := sent + [FeatureSent(OutFeature(ftOut))];
      } else if reportId == 3 {
        sent := sent + [FeatureSent(ChargerFeature(ftChargerMa))];
      } else if reportId == 4 {
        sent := sent + [FeatureSent(BatteryFeature(ftBattCapacity))];
      }
    }

    /** Charger_Periodic, one 1 ms tick; `configured` is whether the device's
        configuration selector is non-zero. On revisions above 0xA the due
        reports alternate between #4 and #2, starting with #4. */
    method Periodic(configured: bool, nChg: Bit)
      requires Valid()
      modifies this, ctrl
      ensures Valid()
      ensures !configured ==> unchanged(this) && unchanged(ctrl)
      ensures configured ==> msCounter == Pacing.Tick(old(msCounter)).0
      ensures configured && Pacing.Tick(old(msCounter)).1 && hwRev > SwitchableOutputRev && old(inputSel) % 2 == 1 ==>
                && voutInputMa == ToU16(analog.measurements.ioutMa)
                && sent == old(sent) + [OutputInput(voutInputMa)]
                && input == old(input) && ftChargerMa == old(ftChargerMa) && unchanged(ctrl)
      ensures configured && Pacing.Tick(old(msCounter)).1 && !(hwRev > SwitchableOutputRev && old(inputSel) % 2 == 1) ==>
                && input == BatteryStatus(old(ftChargerMa), ToU16(GetVoltageMv(analog.measurements)),
                                          ToU16(GetCurrentMa(nChg, analog.measurements)),
                                          analog.measurements.tempC, ftBattCapacity)
                && sent == old(sent) + [BatteryReport(input)]
                && ftChargerMa == (if Overheated(old(ftChargerMa), input.mA, analog.measurements.tempC)
                                   then 100 else old(ftChargerMa))
                && (Overheated(old(ftChargerMa), input.mA, analog.measurements.tempC) ==>
                      (ctrl.tsPin, ctrl.iset2) == CurrentPins(Ichg100mA, old(ctrl.iset2)))
                && (!Overheated(old(ftChargerMa), input.mA, analog.measurements.tempC) ==> unchanged(ctrl))
                && voutInputMa == old(voutInputMa)
      ensures configured && Pacing.Tick(old(msCounter)).1 && hwRev > SwitchableOutputRev ==>
                inputSel == (old(inputSel) + 1) % 0x100 && inputSel % 2 != old(inputSel) % 2
      ensures !(configured && Pacing.Tick(old(msCounter)).1) ==>
                && sent == old(sent) && input == old(input) && voutInputMa == old(voutInputMa)
                && ftChargerMa == old(ftChargerMa) && unchanged(ctrl)
      ensures !(configured && Pacing.Tick(old(msCounter)).1 && hwRev > SwitchableOutputRev) ==>
                inputSel == old(inputSel)
      ensures ftOut == old(ftOut) && ftBattCapacity == old(ftBattCapacity) && outputRequests == old(outputRequests)
    {
      if configured {
        ghost var tick := Pacing.Tick(msCounter);
        msCounter := (msCounter + 1) % 0x100;
        assert msCounter >= Pacing.ReportInterval <==> tick.1;
        if msCounter >= Pacing.ReportInterval {
          if hwRev > SwitchableOutputRev {
            var sel := inputSel;
            inputSel := (inputSel + 1) % 0x100;
            ParityFlips(sel);
            if sel % 2 != 0 {
              SendOutputReport();
            } else {
              SendBatteryReport(nChg);
            }
          } else {
            SendBatteryReport(nChg);
          }
          msCounter := 0;
        }
      }
    }
  }
}
