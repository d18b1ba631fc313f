/** Hardware control of the battery charger IC (Charger/chrg_ctrl.c): the
    charge current limit chosen from the USB port type and the device
    configuration, and the pins that set the charge current, the output
    voltage and the user LED. */
module ChargerCtrl {
  import opened CTypes
  import opened Analog

  /** ChargeCurrentType, in its declaration order; the source compares
      levels with `<` and `>` on their enum values. */
  datatype ChargeCurrent = Ichg0mA | Ichg100mA | Ichg500mA | Ichg800mA
  {
    function Ordinal(): (n: nat)
      ensures n < 4
    {
      match this
      case Ichg0mA => 0
      case Ichg100mA => 1
      case Ichg500mA => 2
      case Ichg800mA => 3
    }
  }

  /** The port types the USB charger detection reports (USB Battery
      Charging 1.2 port types); only the first two raise the limit. */
  datatype UsbPort =
    | DedicatedChargingPort
    | ChargingDownstreamPort
    | StandardDownstreamPort
    | Ps2ProprietaryPort
    | NoChargerDetected

  /** A GPIO that is either released (high impedance) or driven to a level. */
  datatype PinDrive = Floating | Driven(level: Bit)

  /** The (TS, ISET2) pin pair Charger_SetCurrent leaves for a level, given
      the ISET2 state before; 0 mA only disables charging through TS. */
  function CurrentPins(level: ChargeCurrent, iset2: PinDrive): (r: (Bit, PinDrive))
    ensures r.0 == 0 <==> level == Ichg0mA
    ensures level == Ichg0mA ==> r.1 == iset2
    ensures level != Ichg0mA ==> r.1 != Driven(0) || level == Ichg800mA
  {
    match level
    case Ichg0mA => (0, iset2)
    case Ichg100mA => (1, Floating)
    case Ichg500mA => (1, Driven(1))
    case Ichg800mA => (1, Driven(0))
  }

  /** The pins tell the charging levels apart: two levels that leave the
      same pins are the same level. */
  lemma PinsIdentifyLevel(a: ChargeCurrent, b: ChargeCurrent, iset2: PinDrive)
    requires a != Ichg0mA && b != Ichg0mA
    ensures CurrentPins(a, iset2) == CurrentPins(b, iset2) <==> a == b
  {
  }

  /** Charger_GetCurrent_mA: no charge current while nCHG reads high. */
  function GetCurrentMa(nChg: Bit, m: Measurements): (r: int)
    ensures nChg == 1 ==> r == 0
    ensures nChg == 0 ==> r == m.ichrgMa
  {
    if nChg != 0 then 0 else m.ichrgMa
  }

  /** Charger_GetVoltage_mV */
  function GetVoltageMv(m: Measurements): (mV: int)
  {
    m.vbatMv
  }

  /** Charger_UsbPowerPresent: nPWR is active low. */
  function UsbPowerPresent(nPwr: Bit): (present: bool)
    ensures present <==> nPwr == 0
  {
    !(nPwr != 0)
  }

  /** The module's static state and the output pins it drives. */
  class ChargerControl {
    const analog: AnalogUnit
    /** currentLimit */
    var currentLimit: ChargeCurrent
    /** CHARGER_CTRL_PIN (TS): low disables charging. */
    var tsPin: Bit
    /** CHARGER_CURRENT_PIN (ISET2) */
    var iset2: PinDrive
    /** USER_LED_PIN, active low. */
    var ledPin: Bit
    /** VOUT_SELECT_PIN */
    var voutPin: Bit
    /** Whether the mode switch interrupt is enabled. */
    var switchIrqEnabled: bool

    /** Before Charger_Init: the limit is statically 100 mA, the pins are at reset. */
    constructor (analog: AnalogUnit)
      ensures this.analog == analog && currentLimit == Ichg100mA
      ensures tsPin == 0 && iset2 == Floating && ledPin == 0 && voutPin == 0 && !switchIrqEnabled
    {
      this.analog := analog;
      currentLimit := Ichg100mA;
      tsPin := 0;
      iset2 := Floating;
      ledPin := 0;
      voutPin := 0;
      switchIrqEnabled := false;
    }

    /** Charger_Init with the mode switch level read at that time. */
    method Init(switchLevel: Bit)
      modifies this
      ensures tsPin == 1 && iset2 == Floating && switchIrqEnabled
      ensures voutPin == 1 - switchLevel && ledPin == switchLevel
      ensures currentLimit == old(currentLimit)
    {
      tsPin := 1;
      iset2 := Floating;
      ledPin := 1;
      switchIrqEnabled := true;
      OnSwitchChange(switchLevel);
    }

    /** Charger_onSwitchChange: the switch is on when it reads low, and then
        selects the higher output voltage. */
    method OnSwitchChange(switchLevel: Bit)
      modifies this
      ensures voutPin == 1 - switchLevel && ledPin == switchLevel
      ensures currentLimit == old(currentLimit) && tsPin == old(tsPin) && iset2 == old(iset2)
      ensures switchIrqEnabled == old(switchIrqEnabled)
    {
      SetVoltage(if switchLevel == 0 then 1 else 0);
    }

    /** Charger_SetConfig: the USB configuration grants at least 500 mA. */
    method SetConfig()
      modifies this, analog`triggerRunning
      ensures currentLimit == (if old(currentLimit).Ordinal() < Ichg500mA.Ordinal()
                               then Ichg500mA else old(currentLimit))
      ensures currentLimit.Ordinal() >= old(currentLimit).Ordinal()
      ensures currentLimit.Ordinal() >= Ichg500mA.Ordinal()
      ensures analog.triggerRunning && !switchIrqEnabled
      ensures tsPin == old(tsPin) && iset2 == old(iset2) && ledPin == old(ledPin) && voutPin == old(voutPin)
    {
      if currentLimit.Ordinal() < Ichg500mA.Ordinal() {
        currentLimit := Ichg500mA;
      }
      analog.Resume();
      switchIrqEnabled := false;
    }

    /** Charger_ClearConfig */
    method ClearConfig()
      modifies this, analog`triggerRunning
      ensures !analog.triggerRunning && switchIrqEnabled
      ensures currentLimit == old(currentLimit)
      ensures tsPin == old(tsPin) && iset2 == old(iset2) && ledPin == old(ledPin) && voutPin == old(voutPin)
    {
      analog.Halt();
      switchIrqEnabled := true;
    }

    /** Charger_SetType */
    method SetType(port: UsbPort)
      modifies this
      ensures port == DedicatedChargingPort || port == ChargingDownstreamPort ==>
                currentLimit == Ichg800mA && tsPin == old(tsPin) && iset2 == old(iset2)
      ensures port != DedicatedChargingPort && port != ChargingDownstreamPort ==>
                && currentLimit == Ichg100mA
                && (old(currentLimit).Ordinal() > Ichg100mA.Ordinal() ==>
                      (tsPin, iset2) == CurrentPins(old(currentLimit), old(iset2)))
                && (old(currentLimit).Ordinal() <= Ichg100mA.Ordinal() ==>
                      tsPin == old(tsPin) && iset2 == old(iset2))
      ensures ledPin == old(ledPin) && voutPin == old(voutPin) && switchIrqEnabled == old(switchIrqEnabled)
    {
      match port {
        case DedicatedChargingPort =>
          currentLimit := Ichg800mA;
        case ChargingDownstreamPort =>
          currentLimit := Ichg800mA;
        case _ =>
          if currentLimit.Ordinal() > Ichg100mA.Ordinal() {
            SetCurrent(currentLimit);
          }
          currentLimit := Ichg100mA;
      }
    }

    /** Charger_SetCurrent */
    method SetCurrent(level: ChargeCurrent)
      modifies this
      ensures (tsPin, iset2) == CurrentPins(level, old(iset2))
      ensures level == Ichg0mA ==> tsPin == 0 && iset2 == old(iset2)
      ensures level == Ichg100mA ==> tsPin == 1 && iset2 == Floating
      ensures level == Ichg500mA ==> tsPin == 1 && iset2 == Driven(1)
      ensures level == Ichg800mA ==> tsPin == 1 && iset2 == Driven(0)
      ensures currentLimit == old(currentLimit) && ledPin == old(ledPin) && voutPin == old(voutPin)
      ensures switchIrqEnabled == old(switchIrqEnabled)
    {
      match level {
        case Ichg0mA =>
          tsPin := 0;
        case Ichg100mA =>
          tsPin := 1;
          iset2 := Floating;
        case Ichg500mA =>
          tsPin := 1;
          iset2 := Driven(1);
        case Ichg800mA =>
          tsPin := 1;
          iset2 := Driven(0);
      }
    }

    /** Charger_SetVoltage: the LED (active low) lights with the higher voltage. */
    method SetVoltage(voltage: Bit)
      modifies this
      ensures ledPin == 1 - voltage && voutPin == voltage
      ensures ledPin != voutPin
      ensures currentLimit == old(currentLimit) && tsPin == old(tsPin) && iset2 == old(iset2)
      ensures switchIrqEnabled == old(switchIrqEnabled)
    {
      ledPin := 1 - voltage;
      voutPin := voltage;
    }
  }
}
