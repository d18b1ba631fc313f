# DebugDongle firmware core in Dafny

This project models the event handlers of the DebugDongle firmware, a
USB composite device on a small microcontroller, and proves properties of
them. It covers four parts:

- **USB virtual COM port bridge** (`vcp.dfy`, module `Vcp`).
  - The downlink (host to UART) is a two-page ping-pong buffer. Each page is
    tagged Empty, Full, Receiving or Transmitting.
  - The uplink (UART to host) is a 128-byte circular buffer. The receive DMA
    fills it and a cursor (`Index`) trails the DMA's write position.
  - SET_LINE_CODING translates the CDC line coding into the UART setup and
    restarts the bridge.
  - Each handler is a pure step on a `State` value. The class `Bridge`
    implements the handlers as methods over `VCP_Memory` and `SerialConfig`,
    each proved equal to its step.
  - Proved properties of event runs:
    - the page pair stays among six reachable pairs;
    - a full page is handed to the UART exactly once, unless a restart (a
      new configuration or SET_LINE_CODING) comes first, which drops the
      queued chunk;
    - the uplink hands the host consecutive buffer positions;
    - a repeated scan is a no-op;
    - a restart resets the bridge and drops a queued chunk.
- **Battery charger control** (`chrg_ctrl.dfy`, module `ChargerCtrl`).
  - The `currentLimit` policy driven by the USB port type and the device
    configuration.
  - The pin levels that set the charge current, the output voltage and the
    LED.
- **Power supply and charger HID interface** (`chrg_if.dfy`, module
  `ChargerIf`).
  - Feature reports that round the charge current to one of four levels and
    choose the output voltage.
  - The battery IN report's status flags, including thermal derating, and its
    linear remaining-capacity estimate.
  - The paced periodic reports.
- **Analog measurements and the sensor HID interface** (`analog.dfy`,
  `sens_if.dfy`).
  - The integer scalings from ADC millivolts to physical units.
  - The sensor input report's field casts.
  - The sensor feature record, overwritten byte for byte through its
    little-endian memory image.

`ctypes.dfy` writes out C's integer casts and truncating division.
`pacing.dfy` holds the 100-tick report counter that both HID interfaces use.

Calls into the USB stack, the UART and DMA drivers, `Output_SetVoltage` and
`USBD_HID_ReportIn` are recorded in sequences. The output pins the charger
drives (TS, ISET2, the LED, VOUT select) and the switch interrupt's enable are
fields of `ChargerControl` that its methods update.
Everything the firmware reads from hardware is a method parameter:

- the DMA remaining count;
- the USB stack's verdict on a transmit;
- pin levels;
- the configuration selector;
- `Output_GetVoltage`.

`Analog_GetValues` and `Charger_GetVoltage_mV` are plain reads of the shared
measurement record (`AnalogUnit.GetValues`, `ChargerCtrl.GetVoltageMv`); the
contracts of their callers state the reports in terms of that record.

The hardware revision `HW_REV` is a constant field.

Four behaviours of the code worth noting:

- The uplink cursor can reach 128, not just `[0, 128)`. This happens when
  the DMA reports 0 bytes remaining. The well-formedness bound is therefore
  `index <= 128`.
- SET_LINE_CODING only runs `VCP_Init` with the new configuration. It does
  not call `VCP_Deinit` first.
- `VCP_Deinit` only de-initialises the UART. It leaves the page tags and the
  cursor as they are.
- Only `VCP_Periodic` checks whether the device is configured. The other
  handlers do not.

## Model

| member | source | states |
|---|---|---|
| `CTypes.ToU16` | Charger/chrg_if.c:496 | a uint16_t cast is reduction modulo 2^16, identity on values in range |
| `CTypes.ToI16` | Sensor/sens_if.c:343 | an int16_t conversion is congruent modulo 2^16 and lands in [-2^15, 2^15), identity on values in range |
| `CTypes.CDiv` | Sensor/analog.c:102-108 | C's integer division truncates toward zero: the quotient brackets the dividend from below for non-negative and from above for negative dividends |
| `Vcp.InitStep` | VCP/vcp_if.c:99-118 | VCP_Init leaves pages [Receiving, Empty] and Index 0, keeps OutLength and the configuration, re-initialises the UART in that configuration, issues a 64-byte USB receive into page 0 and the circular receive of 128 bytes, and starts no transmit |
| `Vcp.LineCodingConfig` | VCP/vcp_if.c:142-167 | baud rate and data bits are copied; two stop bits exactly when CharFormat is 2; odd parity exactly when ParityType is 1, even exactly when 2, none otherwise |
| `Vcp.ControlStep` | VCP/vcp_if.c:133-188 | after SET_LINE_CODING the pages are [Receiving, Empty], the cursor is 0, OutLength is kept and the configuration is the translated line coding, with the UART re-initialised in that configuration, a 64-byte USB receive into page 0, the 128-byte circular receive and no transmit; every other request changes nothing and calls nothing |
| `Vcp.ReceiveNewStep` | VCP/vcp_if.c:195-215 | receiving a chunk from a reachable pair with a Receiving page keeps the pair reachable, moves neither the cursor nor the configuration, and transmits over the UART only the receiving page with exactly the received length |
| `Vcp.TransmittedStep` | VCP/vcp_if.c:222-239 | transmit-complete from a reachable pair with a Transmitting page keeps the pair reachable, keeps OutLength, and any new UART transmit is of the page that was Full, with the recorded OutLength |
| `Vcp.ScanStep` | VCP/vcp_if.c:246-269 | the uplink scan leaves the pages alone, makes at most one USB transmit within the buffer, hands over circular positions contiguous from the cursor with the cursor moved just past them, and does nothing when the cursor equals the DMA write position |
| `Vcp.Step` | VCP/vcp_if.c:81-89 | every handler, dispatched by event, keeps the cursor within the buffer |
| `Vcp.StepKeeps` | VCP/vcp_if.c:195-269 | every enabled event keeps the page pair reachable (or at power-on), and outside a restart keeps uplink delivery contiguous from the cursor |
| `Vcp.RunKeepsPagesExclusive` | VCP/vcp_if.c:99-239 | over any run the drivers allow, from an initialised state the page pair stays among the six reachable pairs; two Transmitting or two Full pages never occur |
| `Vcp.UplinkIsContiguous` | VCP/vcp_if.c:246-269 | over any run the drivers allow without a restart, the positions handed to the host are consecutive circular positions from the cursor and the cursor ends just past them |
| `Vcp.FullPageWaits` | VCP/vcp_if.c:195-239 | while neither a transmit-complete nor a restart (a new configuration or SET_LINE_CODING) arrives, a Full page stays Full, OutLength stays, and no UART transmit is issued |
| `Vcp.FullPageHandedOnce` | VCP/vcp_if.c:197-238 | unless a restart (a new configuration or SET_LINE_CODING) comes first, which drops the queued chunk, a Full page is handed to the UART exactly once, at the next transmit-complete, with the length recorded when it was filled, and becomes Transmitting |
| `Vcp.QueuedChunkIsSent` | VCP/vcp_if.c:200-234 | a chunk received while the other page transmits is queued with no driver call, and the next transmit-complete sends exactly that chunk |
| `Vcp.RepeatScanIsNoOp` | VCP/vcp_if.c:249-268 | after a successful scan up to the DMA position, a second scan at the same position calls nothing and changes nothing |
| `Vcp.RestartDropsQueuedPage` | VCP/vcp_if.c:99-118 | whatever the state, a new configuration or SET_LINE_CODING leaves the pages [Receiving, Empty] and the cursor 0, keeps OutLength, installs the translated line coding for SET_LINE_CODING, and drops a chunk queued as Full: the next transmit-complete hands nothing to the UART |
| `Vcp.Bridge.constructor` | VCP/vcp_if.c:65-71 | the globals start zeroed: both pages Empty, OutLength and Index 0 |
| `Vcp.Bridge.Init` | VCP/vcp_if.c:99-118 | VCP_Init on the global state: the exact driver calls in order, pages [Receiving, Empty], Index 0, equal to InitStep |
| `Vcp.Bridge.Deinit` | VCP/vcp_if.c:123-126 | VCP_Deinit only de-initialises the UART; the bridge state is unchanged |
| `Vcp.Bridge.Control` | VCP/vcp_if.c:133-188 | SerialConfig rewritten field by field from the line coding, then VCP_Init; equal to ControlStep |
| `Vcp.Bridge.ReceiveNew` | VCP/vcp_if.c:195-215 | with the other page Transmitting the receiving page becomes Full with OutLength set and no call; otherwise it becomes Transmitting with a UART transmit of the length, the other page Receiving with a 64-byte USB receive; equal to ReceiveNewStep |
| `Vcp.Bridge.Transmitted` | VCP/vcp_if.c:222-239 | the transmitting page becomes Empty; if the other is Full it becomes Transmitting with a transmit of OutLength and the freed page Receiving with a USB receive; equal to TransmittedStep |
| `Vcp.Bridge.TransmitNew` | VCP/vcp_if.c:246-269 | forwards [Index, rxIndex) or, wrapped, [Index, 128); the cursor moves only when the USB stack accepts; nothing when Index equals rxIndex; equal to ScanStep |
| `Vcp.Bridge.Periodic` | VCP/vcp_if.c:275-282 | scans the uplink only while configured, otherwise changes and calls nothing |
| `Analog.BatteryMv` | Sensor/analog.c:101-102 | the battery voltage is the divider input times 600/470, truncated toward zero |
| `Analog.ChargeMa` | Sensor/analog.c:104-105 | the charge current is the sense voltage times 54/102, truncated toward zero |
| `Analog.LightLx` | Sensor/analog.c:107-108 | the illuminance is the sensor voltage times 5/30, truncated toward zero |
| `Analog.ScalingsAreMonotonic` | Sensor/analog.c:101-108 | each scaling keeps the order of non-negative inputs |
| `Analog.ChannelOf` | Sensor/analog.c:43-51 | every slot 0..4 holds exactly the channel whose enum value is that index |
| `Analog.SlotsAreDistinct` | Sensor/analog.c:43-51 | no two channels share a conversion slot |
| `Analog.AnalogUnit.constructor` | Sensor/analog.c:78-79 | five zeroed conversion slots and a zeroed measurement record |
| `Analog.AnalogUnit.StoreConversions` | Sensor/analog.c:139-140 | the ADC's DMA writes one sample per slot |
| `Analog.AnalogUnit.ConvertMeasured` | Sensor/analog.c:95-109 | each measurement is computed from the slot of its own channel; Iout_mA is left untouched |
| `Analog.AnalogUnit.Halt` | Sensor/analog.c:155-158 | the trigger timer stops |
| `Analog.AnalogUnit.Resume` | Sensor/analog.c:163-166 | the trigger timer runs |
| `Pacing.Tick` | Sensor/sens_if.c:392-398 | from a counter below 100 one tick fires exactly when the counter was 99, resets it to 0 when firing and otherwise increments it, and keeps it below 100 |
| `Pacing.TicksSplit` | Sensor/sens_if.c:388-400 | n configured ticks from a counter below 100 split counter + n into the reports sent times 100 plus the counter left, which stays below 100 |
| `Pacing.OneReportPerInterval` | Sensor/sens_if.c:388-400 | n configured ticks from a counter c send exactly (c + n) / 100 reports and leave the counter at (c + n) % 100 |
| `ChargerCtrl.CurrentPins` | Charger/chrg_ctrl.c:160-189 | charging is disabled through TS exactly for 0 mA, and 0 mA leaves ISET2 untouched |
| `ChargerCtrl.PinsIdentifyLevel` | Charger/chrg_ctrl.c:162-188 | the non-zero current levels leave pairwise different pin states |
| `ChargerCtrl.GetCurrentMa` | Charger/chrg_ctrl.c:82-93 | 0 while nCHG reads high, otherwise the measured charge current |
| `ChargerIf.ReportCarriesMeasurements` | Charger/chrg_ctrl.c:82-102 | IN report #4 carries the measured Vbat_mV whenever it fits in uint16_t, 0 mA while nCHG reads high, and the measured charge current while nCHG reads low and it fits |
| `ChargerCtrl.UsbPowerPresent` | Charger/chrg_ctrl.c:205-208 | USB power is present exactly when nPWR reads low |
| `ChargerCtrl.ChargerControl.constructor` | Charger/chrg_ctrl.c:26 | the limit starts at 100 mA |
| `ChargerCtrl.ChargerControl.Init` | Charger/chrg_ctrl.c:33-62 | TS driven high, ISET2 floated, switch interrupt enabled, and the output voltage set from the switch |
| `ChargerCtrl.ChargerControl.OnSwitchChange` | Charger/chrg_ctrl.c:68-76 | the negated switch level selects VOUT and the LED shows the switch level |
| `ChargerCtrl.ChargerControl.SetConfig` | Charger/chrg_ctrl.c:109-117 | the limit is raised to at least 500 mA and never lowered; conversions resume; the switch interrupt is disabled |
| `ChargerCtrl.ChargerControl.ClearConfig` | Charger/chrg_ctrl.c:124-128 | conversions halt and the switch interrupt is enabled; the limit is unchanged |
| `ChargerCtrl.ChargerControl.SetType` | Charger/chrg_ctrl.c:134-154 | a dedicated or charging downstream port sets 800 mA without touching the pins; any other port first applies the old limit to the pins if it was above 100 mA, then sets 100 mA |
| `ChargerCtrl.ChargerControl.SetCurrent` | Charger/chrg_ctrl.c:160-189 | 0 mA: TS low, ISET2 untouched; 100 mA: TS high, ISET2 floated; 500 mA: TS high, ISET2 driven 1; 800 mA: TS high, ISET2 driven 0 |
| `ChargerCtrl.ChargerControl.SetVoltage` | Charger/chrg_ctrl.c:195-199 | LED = 1 - v and VOUT = v, so the two always differ |
| `ChargerIf.RoundedCharge` | Charger/chrg_if.c:349-372 | the stored current is one of the four levels, the smallest level at or above the request (800 above 800), and 0 exactly for a 0 request |
| `ChargerIf.RoundingIsIdempotent` | Charger/chrg_if.c:352-371 | sending back a stored current selects the same level and stores the same value |
| `ChargerIf.RoundingIsMonotonic` | Charger/chrg_if.c:352-371 | a larger request never stores a smaller current |
| `ChargerIf.OutSelection` | Charger/chrg_if.c:314-343 | off exactly when the revision is above 0xA and `used` is 0, storing zeros; 5V exactly when otherwise mV > 4500 with buck 0, storing {5000, buck 0, used 1}; else 3V3 storing {Vdd, buck 1, used 1} |
| `ChargerIf.OutReadback` | Charger/chrg_if.c:531-551 | reading feature #2 keeps `used`, keeps everything when the output is off, and otherwise refreshes buck and mV from the output voltage |
| `ChargerIf.OutSelectionIsIdempotent` | Charger/chrg_if.c:319-342 | sending the stored output settings back as a request selects the same voltage and stores the same settings |
| `ChargerIf.ReadbackAgreesWithSelection` | Charger/chrg_if.c:535-551 | reading back feature #2 while the output runs the selected voltage leaves the stored settings as they were set |
| `ChargerIf.RemainingCapacity` | Charger/chrg_if.c:492-496 | between 2900 and 4200 mV the estimate is capacity * (mV - 2900) / 1300 rounded down and never more than the capacity |
| `ChargerIf.RemainingCapacityEnds` | Charger/chrg_if.c:490-496 | the estimate is 0 at 2900 mV and the full capacity at 4200 mV |
| `ChargerIf.RemainingCapacityWrapsWhenDischarged` | Charger/chrg_if.c:492-496 | below 2900 mV the negative estimate wraps in the uint16_t cast, so for capacities up to 20000 the report exceeds the capacity |
| `ChargerIf.RemainingCapacityWrapExample` | Charger/chrg_if.c:492-496 | 1000 mAh at 2800 mV reports 65460 |
| `ChargerIf.BatteryStatus` | Charger/chrg_if.c:429-498 | the battery is reported absent, with all flags and remcap cleared, exactly when charging is enabled without current at 4.1-4.17 V or disabled below 2 V; charged exactly when charging is enabled without current otherwise; overheat exactly when temp > 50, setting >= 500 and current > 300; discharged exactly when present, not charged, not overheated and below 2900 mV; at most one of the three; remcap is the estimate whenever present |
| `ChargerIf.ChargerInterface.constructor` | Charger/chrg_if.c:217-308 | the report buffers' initial values: output {5000, used 1, buck 0}, charger 100 mA, capacity 0, flags cleared; the charger control it is given must read the same measurement record, which `Valid()` keeps |
| `ChargerIf.ChargerInterface.SetOutReport` | Charger/chrg_if.c:314-343 | requests the selected voltage from the output stage and stores the selected settings; nothing else changes |
| `ChargerIf.ChargerInterface.SetChargerReport` | Charger/chrg_if.c:349-372 | applies the rounded level's pin map and stores the rounded current |
| `ChargerIf.ChargerInterface.SetBatteryReport` | Charger/chrg_if.c:378-382 | the capacity is copied verbatim |
| `ChargerIf.ChargerInterface.SetReport` | Charger/chrg_if.c:391-414 | dispatch by report ID: 2 selects the output, 3 sets the charge current, 4 copies the capacity; ID 1 and unknown IDs change nothing |
| `ChargerIf.ChargerInterface.SendOutputReport` | Charger/chrg_if.c:419-424 | IN report #2 carries the output current cast to uint16_t and is sent |
| `ChargerIf.ChargerInterface.SendBatteryReport` | Charger/chrg_if.c:429-501 | IN report #4 equals BatteryStatus of the setting, the cast voltage and current, the temperature and the capacity, and is sent; when overheated the charge setting drops to 100 mA with its pin map, otherwise setting and pins are unchanged |
| `ChargerIf.ChargerInterface.GetReport` | Charger/chrg_if.c:509-575 | an input request for #2 sends the output current; for #4 it sends BatteryStatus of the setting and measurements with the overheat derating of SendBatteryReport; feature requests send #1 (5000 mV), #2 refreshed by OutReadback, #3 and #4 as stored; other IDs send nothing; only #4 touches the charge setting, the pins and the battery report, only #2 the output current, only feature #2 the output settings |
| `ChargerIf.ChargerInterface.Periodic` | Charger/chrg_if.c:580-603 | while configured, one report per 100 ticks; above revision 0xA the report alternates between #4 and #2 starting with #4, below it is always #4; a #2 carries the output current and changes nothing else, a #4 is BatteryStatus of the setting and measurements with the overheat derating; unconfigured nothing changes |
| `SensorIf.DecodeEncode` | Sensor/sens_if.c:299-322 | every feature record survives its 24-byte little-endian memory image |
| `SensorIf.EncodeDecode` | Sensor/sens_if.c:299-322 | every 24-byte image is the image of the record it decodes to |
| `SensorIf.Overwrite` | Sensor/sens_if.c:380-383 | the record's image after the copy is the data followed by the old image past its length |
| `SensorIf.OverwriteKeepsUntouchedBlocks` | Sensor/sens_if.c:380-383 | a copy of at most 16 bytes keeps the voltage block, of at most 8 also the illuminance block, and an empty copy the whole record |
| `SensorIf.InputOf` | Sensor/sens_if.c:343-350 | temp is temp_C cast to int16_t, times 100, stored into int16_t (exact for -327..327 degrees), illum and volt are the uint16 casts of light_lx and Vdd_mV (exact in range) |
| `SensorIf.WriteBackIsNoOp` | Sensor/sens_if.c:360-383 | writing back any prefix of the feature report the host read leaves the record unchanged |
| `SensorIf.SensorInterface.constructor` | Sensor/sens_if.c:322-332 | intervals 100, temperature limits 15000/-5000, illuminance and voltage limits 10000/0 |
| `SensorIf.SensorInterface.SendInput` | Sensor/sens_if.c:337-353 | the input report built from the shared measurements is sent |
| `SensorIf.SensorInterface.GetReport` | Sensor/sens_if.c:360-371 | an input request sends a fresh input report; any other request sends the whole feature record, whatever the report ID |
| `SensorIf.SensorInterface.SetReport` | Sensor/sens_if.c:380-383 | the first `length` bytes of the record's image are replaced by the data |
| `SensorIf.SensorInterface.Periodic` | Sensor/sens_if.c:388-400 | while configured, one input report per 100 ticks and the counter stays below 100; unconfigured nothing changes |

## Left out

- GET_LINE_CODING (VCP/vcp_if.c:173-183) is modelled as changing no bridge state. The bytes it writes back are not modelled, because the encodings of the USART stop-bit and parity constants are not part of this model.
- The byte contents of the downlink pages and the uplink buffer are not modelled, only which pages and positions are handed to which driver. The hardware fills them.
- The uplink DMA's filling of the buffer and its overrun of unread bytes are not modelled. The DMA remaining count is an input in 0..128 on each scan.
- Interrupt preemption between the handlers is not modelled. Each handler is one atomic step.
- Vcp.RunKeepsPagesExclusive and Vcp.UplinkIsContiguous hold over runs the drivers allow (`Enabled`), not over arbitrary event sequences. A chunk arrives only into a page a USB receive was issued for and is at most 64 bytes. A transmit completes only while a page is being transmitted. The DMA remaining count is at most 128. A spurious transmit-complete at [Empty, Receiving] would leave [Empty, Empty], in the source as in the model.
- The header's `VCP_HandleType` and its `VCP_Periodic` signature (VCP/vcp_if.h) are not modelled. The model follows the `.c` file, which the handlers use.
- UART settings that SET_LINE_CODING does not change (mode, flow control, oversampling) are not modelled.
- The HID report descriptors are not modelled. They are declarative byte tables.
- The BSP and App files (pin, DMA, NVIC and ADC register setup, interrupt vectors, the main loop) are not part of this model.
- `Analog_Init`, `Analog_Deinit` and `Analog_IoutConfig` are peripheral setup and are not modelled. Only the trigger timer's running state is.
- The ADC driver's calibrated conversions (`ADC_lCalcVDDA_mV`, `ADC_lCalcTemp_C`, `ADC_lCalcExt_mV`) are parameters of `ConvertMeasured`.
- Who writes `Iout_mA` is not modelled. No file shown assigns it.
- Analog.AnalogUnit.ConvertMeasured: int32_t overflow of the scaling products is not modelled. Integers are unbounded; the ADC's 12-bit range keeps the products far below 2^31.
- ChargerIf.RemainingCapacity: int32_t overflow of `capacity * (mV - 2900)` is not modelled. It cannot occur for battery voltages below 35 668 mV.
- `Output_SetVoltage` and `Output_GetVoltage` are not defined in the files shown. The first is a recorded request; the second is a parameter.
- `USBD_HID_ReportIn` and the CDC and UART driver calls are recorded, not executed. Their return values are ignored as in the source, except the CDC transmit verdict the uplink scan uses.
- The USB library's charger-type enumeration is not part of this model. `UsbPort` lists the Battery Charging 1.2 port types. Only the dedicated and charging downstream ports are singled out, as in the source.
- The charger feature reports are records of fields. The packed byte layout and the buffer casts of `Charger_SetReport` are not modelled, and the report ID byte that `Charger_SetBatteryReport` copies is always 4 there.
- SensorIf.SensorInterface.SetReport requires at most 24 bytes. The source copies `length` bytes with no bound check, so a longer report would overrun `sens_feature`.
- The initial pin levels and interrupt state before `Charger_Init` are reset values chosen by the model. The GPIO configuration of the input pins is not modelled; their levels are parameters.
