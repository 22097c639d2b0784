# ADRV9001 frequency hopping and GPIO: a device-state model

This project models the contract of two public API headers of the ADRV9001
(Navassa) RF transceiver driver. Each header declares C functions and gives
their meaning in prose. The model states what each function does to the
state the device keeps.

- **Frequency hopping** (`Fh`, fh.dfy): the class `FhDevice` holds
  - the two ping-pong hop tables A and B in ARM memory, at most 64 frames each;
  - the staging buffer that `HopTable_Configure` writes into before its mailbox commit;
  - the active-table selection and the frequency-hopping configuration;
  - the three-frame lookahead window: current, upcoming and next frame.

  `Hop` moves the window along the active table. `Window`, `Advance` and
  `Hops` are the specification functions. The lemmas prove that the window
  realigns with the table after three hop edges and stays aligned from then
  on, wrapping around the table.
- **GPIO** (`Gpio`, gpio.dfy): the class `GpioDevice` holds
  - the GP interrupt status word;
  - the mask registers;
  - the output-enable and output-level bits of the 16 digital pins;
  - the nibble source control;
  - the configuration of each GPIO signal.

  The GP_INT rule is the pure predicate `GpIntAsserted`. The lemmas prove it
  bit by bit, together with the bit layout of the 25 interrupt sources.
- **Shared types** (`Adrv9001Common`, common.dfy): the recovery action code,
  the channel states and the C `uint32_t`.

Each API function has the same shape.

- **Its outcome is a parameter.** Every API function talks to the part over
  SPI, the mailbox or a bulk transfer. The model has no transport, so each
  such step is a parameter of type `ActionCode`: `NoAction` when the step
  succeeded, otherwise the recovery action it reported.
- **A failed step stops the call.** The function returns that step's code
  and performs none of its later steps. A step that failed changes nothing.
  One call has a step that can succeed before a later step fails:
  `HopTable_Configure`. When its direct write succeeds and its mailbox
  command then fails, the staging buffer holds the new
  frames and `load` records `Staged`. The hop tables themselves stay as
  they were.
- **A refused precondition returns `CheckParam`.** This holds for
  `fh_Configure`, `gpio_Configure` and `gpio_Inspect`, which state a
  channel-state precondition, and for a hop table larger than 64 frames.
  The headers do not say who checks the channel-state precondition. The
  model has the device check it; see the modelling choice below.

Modelling choices where the headers say nothing:

- **Reset state.**
  - Both hop tables are empty and table A is active.
  - No mask register has been written, and such a register reads as all sources masked.
  - Every pin is an input that drives low, and no signal is configured.
- **Channel-state gate.** `gpio_Configure` and `gpio_Inspect` require
  every channel to be in STANDBY, CALIBRATED, PRIMED or RF_ENABLED, and
  `fh_Configure` requires STANDBY. To give the GPIO gate a state to refuse,
  the model adds a channel state the headers do not name, `Uninitialized`:
  a channel the device has not yet brought up. The model also assumes the
  device checks these preconditions and returns `CheckParam` when one fails.
  The headers only state them as obligations of the caller.
- **Switching tables.** A `HopTable_Set` that switches tables does not
  touch the three frames already in the window. It only resets the
  position the next frame is taken from, so the next frame to enter the
  window is the new table's first entry. Selecting the table that is
  already active changes nothing.
- **Reloading the active table shorter.** When the active table is
  reloaded with fewer frames than the position recorded for the next frame,
  the next frame is taken from position 0 of the new table (`Start`).
- **Refilling the window.** Neither a load nor a switch refills the window.
  After initialization it holds the constructor's initial frame three times.
  The window shows consecutive frames of the active table only from the
  third hop edge after initialization or after a switch.
- **Hop on an empty table.** A hop when the active table is empty has no
  effect.
- **Hop precondition.** The prose of `fh_Hop` says the call has no effect
  until a hopping channel is PRIMED. Its `\pre` line reads "PRIMED
  RF_ENABLED". The model accepts a hopping channel in either state.
- **`InputPinLevel_Get`.** The prose describes a 16-bit word with one bit
  per pin. The signature takes one `pin` and returns one
  `adi_adrv9001_GpioPinLevel_e`. The model follows the signature: the level
  returned is that pin's bit of the input-level word `InputWord`, and
  `InputWordBits` states the word's layout.

## Model

The source cells are paths to `drivers/rf-transceiver/navassa/devices/adrv9001/public/include/`.

| member | source | states |
|---|---|---|
| Fh.TableId.Other | drivers/rf-transceiver/navassa/devices/adrv9001/public/include/adi_adrv9001_fh.h:69 | the ping-pong partner of a table is the other table, never itself |
| Fh.Succ | drivers/rf-transceiver/navassa/devices/adrv9001/public/include/adi_adrv9001_fh.h:134-139 | the table position after `i` stays inside the table and equals `(i+1) mod n`, wrapping to the first frame |
| Fh.Walk | drivers/rf-transceiver/navassa/devices/adrv9001/public/include/adi_adrv9001_fh.h:134-139 | stepping j table positions on from position i lands at `(i+j) mod n`, inside the table |
| Fh.AdvanceShifts | drivers/rf-transceiver/navassa/devices/adrv9001/public/include/adi_adrv9001_fh.h:134-139 | at a hop edge the new current frame is the old upcoming frame, the new upcoming frame is the old next frame, and the new next frame comes from the table |
| Fh.AdvanceKeepsAlignment | drivers/rf-transceiver/navassa/devices/adrv9001/public/include/adi_adrv9001_fh.h:134-139 | a window showing three consecutive table frames from position i shows those from position i+1 (wrapping) after one hop |
| Fh.ThreeHopsAlign | drivers/rf-transceiver/navassa/devices/adrv9001/public/include/adi_adrv9001_fh.h:134-139 | whatever the window held, three hop edges on one table leave it showing three consecutive frames of that table |
| Fh.AlignedAfterHops | drivers/rf-transceiver/navassa/devices/adrv9001/public/include/adi_adrv9001_fh.h:134-139 | from the third hop edge on, after m hops the window shows the table frames at positions m-3 steps past the start, wrapping around the table |
| Fh.ReadBackBounded | drivers/rf-transceiver/navassa/devices/adrv9001/public/include/adi_adrv9001_fh.h:93-95 | a read-back reports at most `hopTableSize` entries and no more than the table holds, where the buffer's first entries are the table's and the rest of the buffer keeps its contents |
| Fh.ReadBackWhole | drivers/rf-transceiver/navassa/devices/adrv9001/public/include/adi_adrv9001_fh.h:82-95 | a buffer with room for the whole table receives exactly the table and the count equals the table's length |
| Fh.CopyFrames | drivers/rf-transceiver/navassa/devices/adrv9001/public/include/adi_adrv9001_fh.h:75 | copies the first n frames and leaves the rest of the destination unchanged |
| Fh.FhDevice.constructor | drivers/rf-transceiver/navassa/devices/adrv9001/public/include/adi_adrv9001_fh.h:66 | the state after initialization: both tables empty, table A active, no load in progress |
| Fh.FhDevice.Configure | drivers/rf-transceiver/navassa/devices/adrv9001/public/include/adi_adrv9001_fh.h:26-40 | refused with `CheckParam` unless every channel is STANDBY; the configuration is applied exactly when the call succeeds and nothing else changes |
| Fh.FhDevice.ConfigurationInspect | drivers/rf-transceiver/navassa/devices/adrv9001/public/include/adi_adrv9001_fh.h:42-55 | a successful call returns the applied configuration and changes nothing |
| Fh.FhDevice.HopTableConfigure | drivers/rf-transceiver/navassa/devices/adrv9001/public/include/adi_adrv9001_fh.h:57-79 | a size above 64 is refused and nothing changes; a failed bulk write or mailbox commit leaves the table unchanged; on success the table holds exactly the first `hopTableSize` frames given; the other table, the active selection, the window and the configuration never change |
| Fh.FhDevice.HopTableInspect | drivers/rf-transceiver/navassa/devices/adrv9001/public/include/adi_adrv9001_fh.h:81-104 | on success the caller's array is the `ReadBack` of the table, bounded by `hopTableSize`; `numEntriesRead` is the number of entries delivered when requested and nothing when null or on failure; device state is untouched |
| Fh.FhDevice.HopTableSet | drivers/rf-transceiver/navassa/devices/adrv9001/public/include/adi_adrv9001_fh.h:106-119 | on success `tableId` is active; a switch keeps the three window frames and resets the table position to 0, so the next frame to enter the window is the new table's first; selecting the active table or a failed call changes nothing |
| Fh.FhDevice.HopTableGet | drivers/rf-transceiver/navassa/devices/adrv9001/public/include/adi_adrv9001_fh.h:121-132 | a successful call returns the active table and changes nothing |
| Fh.FhDevice.FrameInfoInspect | drivers/rf-transceiver/navassa/devices/adrv9001/public/include/adi_adrv9001_fh.h:134-151 | a successful call returns the current, upcoming or next frame of the window, as asked, and changes nothing |
| Fh.FhDevice.Hop | drivers/rf-transceiver/navassa/devices/adrv9001/public/include/adi_adrv9001_fh.h:153-167 | with no hopping channel PRIMED or RF_ENABLED the call has no effect and reports the transport outcome; otherwise the window advances along the active table; only the window can change |
| Fh.LoadThenReadBack | drivers/rf-transceiver/navassa/devices/adrv9001/public/include/adi_adrv9001_fh.h:57-104 | loading n ≤ 64 frames and reading back with any capacity of at least n yields exactly those frames and `numEntriesRead` = n |
| Fh.RejectedConfigureThenInspect | drivers/rf-transceiver/navassa/devices/adrv9001/public/include/adi_adrv9001_fh.h:26-55 | a configuration refused because some channel is not STANDBY returns `CheckParam`, and Inspect still reports the previously applied configuration |
| Fh.SetThenGet | drivers/rf-transceiver/navassa/devices/adrv9001/public/include/adi_adrv9001_fh.h:106-132 | `HopTable_Set(t)` followed by `HopTable_Get` returns t |
| Fh.ThreeFrameScenario | drivers/rf-transceiver/navassa/devices/adrv9001/public/include/adi_adrv9001_fh.h:134-167 | loading [f0, f1, f2], arming a channel and hopping four times leaves the window at f1, f2, f0 |
| Gpio.SourceBitUnique | drivers/rf-transceiver/navassa/devices/adrv9001/public/include/adi_adrv9001_gpio.h:57-86 | each of the 25 interrupt sources has its own status bit, as listed in the bit table, and that bit is a source bit |
| Gpio.SourceBitsExact | drivers/rf-transceiver/navassa/devices/adrv9001/public/include/adi_adrv9001_gpio.h:146-175 | a status bit carries a source exactly when it is in bits 0-20 or 24-27; bits 21-23 carry none |
| Gpio.GpIntAssertedIff | drivers/rf-transceiver/navassa/devices/adrv9001/public/include/adi_adrv9001_gpio.h:43-48 | GP_INT is asserted if and only if some bit is set in the status word while its mask bit is low |
| Gpio.MaskedSourceIgnored | drivers/rf-transceiver/navassa/devices/adrv9001/public/include/adi_adrv9001_gpio.h:43-48 | a source whose mask bit is high has no influence on GP_INT: the pin is asserted with it pending exactly when it is asserted without it, whatever else is pending |
| Gpio.MaskedSourceStillReported | drivers/rf-transceiver/navassa/devices/adrv9001/public/include/adi_adrv9001_gpio.h:127-137 | on a quiet device, a masked source that fires leaves GP_INT low, yet GpIntStatus_Get reports its bit and then clears the word |
| Gpio.OnlySourceBits | drivers/rf-transceiver/navassa/devices/adrv9001/public/include/adi_adrv9001_gpio.h:63-65 | in a status word that holds only source bits, every set bit names a source and none of bits 21-23 is set |
| Gpio.SetBit16Bits | drivers/rf-transceiver/navassa/devices/adrv9001/public/include/adi_adrv9001_gpio.h:182-198 | writing one pin's level bit sets that pin's bit and keeps every other pin's bit |
| Gpio.InputWordBits | drivers/rf-transceiver/navassa/devices/adrv9001/public/include/adi_adrv9001_gpio.h:218-237 | bit n of the input-level word is GPIO n and is 1 exactly when the pin is an input in bitbang mode and its level is high |
| Gpio.CrumbPinsBits | drivers/rf-transceiver/navassa/devices/adrv9001/public/include/adi_adrv9001_gpio.h:251-261 | crumb c covers exactly pins 2c and 2c+1 |
| Gpio.GpioDevice.constructor | drivers/rf-transceiver/navassa/devices/adrv9001/public/include/adi_adrv9001_gpio.h:52 | the state after initialization: no interrupt pending, no mask written, every pin an input driving low, no signal configured |
| Gpio.GpioDevice.Latch | drivers/rf-transceiver/navassa/devices/adrv9001/public/include/adi_adrv9001_gpio.h:43-48 | firing sources latch their bits into the status word, and bits that carry no source are never set |
| Gpio.GpioDevice.GpIntHandler | drivers/rf-transceiver/navassa/devices/adrv9001/public/include/adi_adrv9001_gpio.h:37-91 | reports the status word; no recovery action when no source is pending, the device's recovery action otherwise; nothing changes |
| Gpio.GpioDevice.GpIntMaskSet | drivers/rf-transceiver/navassa/devices/adrv9001/public/include/adi_adrv9001_gpio.h:93-108 | on success mask register `maskSelect` holds the new mask; no other register changes |
| Gpio.GpioDevice.GpIntMaskGet | drivers/rf-transceiver/navassa/devices/adrv9001/public/include/adi_adrv9001_gpio.h:110-125 | a successful call returns the mask of register `maskSelect` and changes nothing |
| Gpio.GpioDevice.GpIntStatusGet | drivers/rf-transceiver/navassa/devices/adrv9001/public/include/adi_adrv9001_gpio.h:127-180 | on success returns the whole status word, masked sources included, then clears it, so GP_INT deasserts under every mask; a failed read clears nothing |
| Gpio.GpioDevice.OutputPinLevelSet | drivers/rf-transceiver/navassa/devices/adrv9001/public/include/adi_adrv9001_gpio.h:182-198 | sets the level of `pin` only when the pin is an output in bitbang mode; otherwise the levels are unchanged |
| Gpio.GpioDevice.OutputPinLevelGet | drivers/rf-transceiver/navassa/devices/adrv9001/public/include/adi_adrv9001_gpio.h:200-216 | a successful call returns the level `pin` is set to drive |
| Gpio.GpioDevice.InputPinLevelGet | drivers/rf-transceiver/navassa/devices/adrv9001/public/include/adi_adrv9001_gpio.h:218-237 | a successful call returns the pin's bit of the input-level word as a level |
| Gpio.GpioDevice.ManualInputConfigure | drivers/rf-transceiver/navassa/devices/adrv9001/public/include/adi_adrv9001_gpio.h:239-249 | on success `pin` becomes an input and no other pin's direction changes |
| Gpio.GpioDevice.ManualOutputConfigure | drivers/rf-transceiver/navassa/devices/adrv9001/public/include/adi_adrv9001_gpio.h:251-261 | on success both pins of the crumb become outputs and no other pin's direction changes |
| Gpio.GpioDevice.Configure | drivers/rf-transceiver/navassa/devices/adrv9001/public/include/adi_adrv9001_gpio.h:302-317 | refused with `CheckParam` unless every channel is STANDBY, CALIBRATED, PRIMED or RF_ENABLED; on success `signal` has the given configuration and no other signal changes |
| Gpio.GpioDevice.Inspect | drivers/rf-transceiver/navassa/devices/adrv9001/public/include/adi_adrv9001_gpio.h:319-334 | same channel-state gate; a successful call returns the configuration of `signal` |
| Gpio.MaskSetThenGet | drivers/rf-transceiver/navassa/devices/adrv9001/public/include/adi_adrv9001_gpio.h:93-125 | setting a mask and reading it back returns that mask; other selectors' masks and the status word are unchanged |
| Gpio.PinLevelSetThenGet | drivers/rf-transceiver/navassa/devices/adrv9001/public/include/adi_adrv9001_gpio.h:182-216 | setting the level of a driving pin and reading it back returns that level, and no other pin's level changes |
| Gpio.ConfigureThenInspect | drivers/rf-transceiver/navassa/devices/adrv9001/public/include/adi_adrv9001_gpio.h:302-334 | with every channel initialized, configuring a signal and inspecting it returns the configuration |

## Left out

- Transport: mailbox message framing and priorities, SPI register access and the DMA/bulk transfers are not modelled. Each is one atomic step whose outcome is a parameter.
- Field contents: the fields of `adi_adrv9001_FhCfg_t`, `adi_adrv9001_FhHopFrame_t`, the GPIO signal enumeration and the GPIO configuration types are opaque values here. They live in the `*_types.h` headers, which are not part of this model. Because of this, the model does not check any field of a configuration or a hop frame.
- RF behaviour and timing: frequency synthesis, the timing of hop edges and the profile setting `fhModeOn` are not modelled. The device's own hop edges appear only as the `Hop` step.
- Concurrency: calling `HopTable_Set` or a table load while hopping is live is modelled as sequential calls.
- Fh.FhDevice.HopTableConfigure: the model assumes that the host writes into a staging buffer separate from both hop tables, and that only the mailbox command copies those frames into the table. The header says only that the buffer is written directly and then the ARM is messaged. A real device may have written part of the table's memory when the command fails. So the clause that a failed bulk write or a failed mailbox command leaves the table intact holds under this assumption only. A refused size above 64 frames leaves everything intact whatever the memory layout.
- Fh.AlignedAfterHops: the window follows the table's order (upcoming = current + 1 and next = current + 2, modulo the table length) only from the third hop edge after initialization or after a table switch, because the model never refills the window on a load or a switch. The promise that a single hop after a load and a switch already shows the next table frame is not proved.
- Fh.FhDevice.Hop: "SPI or mailbox" is reduced to one transport outcome. A hop that the device ignores is reported like any other call, by the transport outcome.
- Gpio.GpioDevice.GpIntHandler: "clear it if possible" and the recovery action it picks for a pending source are device policy the header does not describe. The recovery action is the parameter `recovery`, and the handler clears nothing.
- `adi_adrv9001_gpio_ControlInit_Configure`, `ManualAnalogInput_Configure` and `ManualAnalogOutput_Configure`, and the analog GPIO pins, are not modelled. Their meaning is defined by configuration types that are not part of this model.
- Gpio.GpioDevice.InputPinLevelGet: models the documented 16-bit input word through `InputWord`, and returns the level of the one pin the signature asks for.
- Gpio.GpioDevice.GpIntMaskSet: the mask selector enumeration is defined in a types header that is not part of this model, so a selector is any number.
- `extern "C"` guards and includes.
