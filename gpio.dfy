/**
  GPIO and general-purpose interrupt registers of the ADRV9001 (adi_adrv9001_gpio.h).

  The device has a 32-bit GP interrupt status word with 25 sources, mask
  registers whose set bits keep a source from asserting the GP_INT pin, the
  16 digital GPIO pins with their output-enable and output-level registers
  and a per-nibble source control, and a GPIO configuration per signal.
  `GpioDevice` is that register state; its methods are the API functions, each
  one atomic step that returns an action code. The outcome of the register
  access or mailbox command a call makes is the parameter `transport`: a
  failed access is reported as the call's action code and changes nothing.
 */
module Gpio {
  import opened Adrv9001Common

  /** Bit n of a 32-bit register word. */
  function Bit32(w: bv32, n: bv5): bool
  {
    (w >> n) & 1 == 1
  }

  /** The 25 GP interrupt sources. */
  datatype GpIntSource =
    | CoreArmError | CoreForceGpInterrupt | CoreArmSystemError | CoreArmCalibrationError
    | CoreArmMonitorError | Tx1PaProtectionError | Tx2PaProtectionError | ClkPllLowPowerLock
    | RfPllLock1 | RfPllLock2 | AuxPllLock | ClkPllLock | Clk1105Mcs | Clk1105McsSecond
    | LssiRx1ClkMcs | LssiRx2ClkMcs | MainStreamProcessorError | StreamProcessor0Error
    | StreamProcessor1Error | StreamProcessor2Error | StreamProcessor3Error
    | TxDpWriteRequestToBbic | RxDpReadRequestFromBbic | TxDpTransmitError | RxDpReceiveError

  /** The sources in the order of their status bits, low to high. */
  const Sources: seq<GpIntSource> := [
    CoreArmError, CoreForceGpInterrupt, CoreArmSystemError, CoreArmCalibrationError,
    CoreArmMonitorError, Tx1PaProtectionError, Tx2PaProtectionError, ClkPllLowPowerLock,
    RfPllLock1, RfPllLock2, AuxPllLock, ClkPllLock, Clk1105Mcs, Clk1105McsSecond,
    LssiRx1ClkMcs, LssiRx2ClkMcs, MainStreamProcessorError, StreamProcessor0Error,
    StreamProcessor1Error, StreamProcessor2Error, StreamProcessor3Error,
    TxDpWriteRequestToBbic, RxDpReadRequestFromBbic, TxDpTransmitError, RxDpReceiveError]

  /** The status (and mask) bit of each source; bits 21 to 23 are not used. */
  function SourceBit(s: GpIntSource): bv5
  {
    match s
    case CoreArmError => 0
    case CoreForceGpInterrupt => 1
    case CoreArmSystemError => 2
    case CoreArmCalibrationError => 3
    case CoreArmMonitorError => 4
    case Tx1PaProtectionError => 5
    case Tx2PaProtectionError => 6
    case ClkPllLowPowerLock => 7
    case RfPllLock1 => 8
    case RfPllLock2 => 9
    case AuxPllLock => 10
    case ClkPllLock => 11
    case Clk1105Mcs => 12
    case Clk1105McsSecond => 13
    case LssiRx1ClkMcs => 14
    case LssiRx2ClkMcs => 15
    case MainStreamProcessorError => 16
    case StreamProcessor0Error => 17
    case StreamProcessor1Error => 18
    case StreamProcessor2Error => 19
    case StreamProcessor3Error => 20
    case TxDpWriteRequestToBbic => 24
    case RxDpReadRequestFromBbic => 25
    case TxDpTransmitError => 26
    case RxDpReceiveError => 27
  }

  /** The source a status bit reports, if any. */
  function SourceAt(n: bv5): Option<GpIntSource>
  {
    if n <= 20 then Some(Sources[n as int])
    else if 24 <= n <= 27 then Some(Sources[n as int - 3])
    else None
  }

  /** The status bits that carry an interrupt source: bits 0 to 20 and 24 to 27. */
  const SourceBits: bv32 := 0x0F1F_FFFF

  /** Each source has its own status bit, and that bit is one of `SourceBits`. */
  lemma SourceBitUnique(s: GpIntSource)
    ensures SourceAt(SourceBit(s)) == Some(s)
    ensures Bit32(SourceBits, SourceBit(s))
  {
  }

  /** A status bit carries a source exactly when it is one of `SourceBits`; bits 21 to 23 and 28 to 31 carry none. */
  lemma SourceBitsExact(n: bv5)
    ensures Bit32(SourceBits, n) <==> SourceAt(n).Some?
    ensures 21 <= n <= 23 ==> !Bit32(SourceBits, n)
  {
  }

  /** The GP_INT pin: the OR of all status sources whose mask bit is low. */
  predicate GpIntAsserted(status: bv32, mask: bv32)
  {
    status & !mask != 0
  }

  lemma {:induction false} SomeBitBelow(w: bv32, k: bv5)
    requires w & ((1 << k) - 1) != 0
    ensures exists n: bv5 :: n < k && Bit32(w, n)
    decreases k
  {
    if !Bit32(w, k - 1) {
      SomeBitBelow(w, k - 1);
    }
  }

  /** A non-zero word has a set bit. */
  lemma NonZeroHasBit(w: bv32)
    requires w != 0
    ensures exists n: bv5 :: Bit32(w, n)
  {
    if !Bit32(w, 31) {
      SomeBitBelow(w, 31);
    }
  }

  /**
    The GP_INT rule bit by bit: the pin is asserted exactly when some source
    bit is set in the status word while its mask bit is low; a high mask bit
    keeps its source from asserting the pin.
   */
  lemma GpIntAssertedIff(status: bv32, mask: bv32)
    ensures GpIntAsserted(status, mask) <==> exists n: bv5 :: Bit32(status, n) && !Bit32(mask, n)
  {
    if GpIntAsserted(status, mask) {
      NonZeroHasBit(status & !mask);
      var n: bv5 :| Bit32(status & !mask, n);
      assert Bit32(status, n) && !Bit32(mask, n);
    }
  }

  /**
    A high mask bit takes its source out of the GP_INT rule: whatever else is
    pending, the pin is asserted exactly as it would be without that source.
   */
  lemma MaskedSourceIgnored(status: bv32, mask: bv32, n: bv5)
    requires Bit32(mask, n)
    ensures GpIntAsserted(status, mask) <==> GpIntAsserted(status & !(1 << n), mask)
  {
  }

  /** A status word that only holds source bits has none of the unused bits 21 to 23 set. */
  lemma OnlySourceBits(status: bv32, n: bv5)
    requires status & !SourceBits == 0
    requires Bit32(status, n)
    ensures SourceAt(n).Some?
    ensures !(21 <= n <= 23)
  {
    assert Bit32(SourceBits, n);
  }

  /** Selects a GP interrupt mask register; the selector values are in adi_adrv9001_gpio_types.h, which is not part of this model. */
  datatype MaskSelect = MaskSelect(register: nat)

  /** A mask register that has never been written: every source masked. */
  const AllMasked: bv32 := 0xFFFF_FFFF

  /** Index of a digital GPIO pin, GPIO 0 to GPIO 15. */
  type DigitalPin = bv4

  /** Index of a pin crumb (pair of pins 2c and 2c+1). */
  type Crumb = c: bv4 | c < 8

  datatype PinLevel = Low | High

  function LevelOf(b: bool): PinLevel
  {
    if b then High else Low
  }

  /** Bit `pin` of a 16-bit pin register. */
  function Bit16(w: bv16, pin: DigitalPin): bool
  {
    (w >> pin) & 1 == 1
  }

  /** The register `w` with the bit of `pin` set to `b`. */
  function SetBit16(w: bv16, pin: DigitalPin, b: bool): bv16
  {
    if b then w | (1 << pin) else w & !(1 << pin)
  }

  /** Writing one pin's bit sets that bit and no other. */
  lemma SetBit16Bits(w: bv16, pin: DigitalPin, b: bool, other: DigitalPin)
    ensures Bit16(SetBit16(w, pin, b), other) == if other == pin then b else Bit16(w, other)
  {
  }

  /** True when the source control of the pin's nibble is GPIO_BITBANG_MODE. */
  predicate InBitbang(nibbles: bv4, pin: DigitalPin)
  {
    (nibbles >> (pin >> 2)) & 1 == 1
  }

  /** The pins whose nibble is in bitbang mode, one bit per pin. */
  function BitbangPins(nibbles: bv4): bv16
  {
    (if nibbles & 1 != 0 then 0x000F else 0) |
    (if nibbles & 2 != 0 then 0x00F0 else 0) |
    (if nibbles & 4 != 0 then 0x0F00 else 0) |
    (if nibbles & 8 != 0 then 0xF000 else 0)
  }

  /** The input-level word: the pad levels of the pins that are bitbang inputs, 0 elsewhere. */
  function InputWord(pads: bv16, outputEnable: bv16, nibbles: bv4): bv16
  {
    pads & !outputEnable & BitbangPins(nibbles)
  }

  /**
    Bit n of the input-level word is GPIO n: 1 when the pin is an input in
    bitbang mode and its pad is high, 0 otherwise (a low pad, or a pin that is
    not a bitbang input).
   */
  lemma InputWordBits(pads: bv16, outputEnable: bv16, nibbles: bv4, pin: DigitalPin)
    ensures Bit16(InputWord(pads, outputEnable, nibbles), pin) <==>
              Bit16(pads, pin) && !Bit16(outputEnable, pin) && InBitbang(nibbles, pin)
  {
  }

  /** The two pins of a crumb. */
  function CrumbPins(crumb: Crumb): bv16
  {
    (3 as bv16) << (crumb * 2)
  }

  /** Crumb c covers exactly pins 2c and 2c+1. */
  lemma CrumbPinsBits(crumb: Crumb, pin: DigitalPin)
    ensures Bit16(CrumbPins(crumb), pin) <==> pin >> 1 == crumb
  {
  }

  /** Identifies a GPIO signal; the signal values are in adi_adrv9001_gpio_types.h, which is not part of this model. */
  datatype GpioSignal = GpioSignal(id: nat)

  /** A GPIO configuration; its fields are in adi_adrv9001_gpio_types.h, which is not part of this model. */
  datatype GpioCfg = GpioCfg(fields: seq<int>)

  /** The configuration of a signal that has never been configured. */
  const UnassignedCfg := GpioCfg([])

  class GpioDevice {
    /** The GP interrupt status word; sources latch their bits here. */
    var status: bv32
    /** The GP interrupt mask registers that have been written. */
    var masks: map<MaskSelect, bv32>
    /** Output enable (OE) per digital pin: 1 = output. */
    var outputEnable: bv16
    /** The level each digital pin is set to drive in bitbang mode: 1 = high. */
    var outputLevels: bv16
    /** Source control per nibble of pins (pins 4k to 4k+3); 1 = GPIO_BITBANG_MODE. */
    const bitbangNibbles: bv4
    /** The configuration per GPIO signal. */
    var signalConfig: map<GpioSignal, GpioCfg>

    /** Only the 25 source bits of the status word can ever be set. */
    ghost predicate Valid()
      reads this
    {
      status & !SourceBits == 0
    }

    function Mask(maskSelect: MaskSelect): bv32
      reads this
    {
      if maskSelect in masks then masks[maskSelect] else AllMasked
    }

    /** The GP_INT pin as mask register `maskSelect` gates it. */
    predicate GpIntPin(maskSelect: MaskSelect)
      reads this
    {
      GpIntAsserted(status, Mask(maskSelect))
    }

    /** True when `pin` drives its output level: its OE is output and its nibble is in bitbang mode. */
    predicate DrivesOutput(pin: DigitalPin)
      reads this
    {
      Bit16(outputEnable, pin) && InBitbang(bitbangNibbles, pin)
    }

    function SignalConfig(signal: GpioSignal): GpioCfg
      reads this
    {
      if signal in signalConfig then signalConfig[signal] else UnassignedCfg
    }

    /**
      The device after initialization: no interrupt pending, no mask written,
      every digital pin an input driving low, no signal configured; the
      nibble source control is `bitbangNibbles`.
     */
    constructor (bitbangNibbles: bv4)
      ensures Valid()
      ensures status == 0 && masks == map[] && outputEnable == 0 && outputLevels == 0
      ensures signalConfig == map[] && this.bitbangNibbles == bitbangNibbles
    {
      status := 0;
      masks := map[];
      outputEnable := 0;
      outputLevels := 0;
      this.bitbangNibbles := bitbangNibbles;
      signalConfig := map[];
    }

    /**
      The device side: interrupt sources fire and latch their status bits.
      Bits that carry no source are never set.
     */
    method Latch(events: bv32)
      requires Valid()
      modifies this`status
      ensures Valid()
      ensures status == old(status) | (events & SourceBits)
    {
      status := status | (events & SourceBits);
    }

    /**
      adi_adrv9001_gpio_GpIntHandler: reads the status word to find the
      source of a GP_INT assertion, changing nothing. `recovery` is the
      device's recovery action for the pending sources (its choice is device
      policy): no source pending means no action.
     */
    method GpIntHandler(transport: ActionCode, recovery: ActionCode) returns (action: ActionCode, gpIntStatus: bv32)
      ensures action == if transport != NoAction then transport
                        else if status == 0 then NoAction
                        else recovery
      ensures transport == NoAction ==> gpIntStatus == status
    {
      if transport != NoAction {
        return transport, 0;
      }
      gpIntStatus := status;
      action := if status == 0 then NoAction else recovery;
    }

    /** adi_adrv9001_gpio_GpIntMask_Set: writes mask register `maskSelect` and no other. */
    method GpIntMaskSet(maskSelect: MaskSelect, maskArray: bv32, transport: ActionCode) returns (action: ActionCode)
      requires Valid()
      modifies this`masks
      ensures Valid()
      ensures action == transport
      ensures masks == if action == NoAction then old(masks)[maskSelect := maskArray] else old(masks)
      ensures action == NoAction ==> Mask(maskSelect) == maskArray
    {
      action := transport;
      if action == NoAction {
        masks := masks[maskSelect := maskArray];
      }
    }

    /** adi_adrv9001_gpio_GpIntMask_Get: reads mask register `maskSelect`. */
    method GpIntMaskGet(maskSelect: MaskSelect, transport: ActionCode) returns (action: ActionCode, maskArray: bv32)
      ensures action == transport
      ensures action == NoAction ==> maskArray == Mask(maskSelect)
    {
      action := transport;
      maskArray := if action == NoAction then Mask(maskSelect) else 0;
    }

    /**
      adi_adrv9001_gpio_GpIntStatus_Get: returns the status word, every source
      whether masked or not, and the read clears the status bits.
     */
    method GpIntStatusGet(transport: ActionCode) returns (action: ActionCode, gpIntStatus: bv32)
      requires Valid()
      modifies this`status
      ensures Valid()
      ensures action == transport
      ensures action == NoAction ==> gpIntStatus == old(status) && status == 0
      ensures action == NoAction ==> forall sel :: !GpIntPin(sel)
      ensures action != NoAction ==> status == old(status)
    {
      action := transport;
      if action == NoAction {
        gpIntStatus := status;
        status := 0;
      } else {
        gpIntStatus := 0;
      }
    }

    /**
      adi_adrv9001_gpio_OutputPinLevel_Set: sets the level `pin` drives; only a
      pin whose OE is output and whose nibble is in bitbang mode is affected.
     */
    method OutputPinLevelSet(pin: DigitalPin, level: PinLevel, transport: ActionCode) returns (action: ActionCode)
      requires Valid()
      modifies this`outputLevels
      ensures Valid()
      ensures action == transport
      ensures outputLevels == if action == NoAction && DrivesOutput(pin)
                              then SetBit16(old(outputLevels), pin, level == High)
                              else old(outputLevels)
    {
      action := transport;
      if action == NoAction && DrivesOutput(pin) {
        outputLevels := SetBit16(outputLevels, pin, level == High);
      }
    }

    /** adi_adrv9001_gpio_OutputPinLevel_Get: the level `pin` is set to drive. */
    method OutputPinLevelGet(pin: DigitalPin, transport: ActionCode) returns (action: ActionCode, gpioOutPinLevel: PinLevel)
      ensures action == transport
      ensures action == NoAction ==> gpioOutPinLevel == LevelOf(Bit16(outputLevels, pin))
    {
      action := transport;
      gpioOutPinLevel := if action == NoAction then LevelOf(Bit16(outputLevels, pin)) else Low;
    }

    /**
      adi_adrv9001_gpio_InputPinLevel_Get: the level of `pin` as the input-level
      word reports it, given the levels `pads` present on the pins.
     */
    method InputPinLevelGet(pin: DigitalPin, pads: bv16, transport: ActionCode) returns (action: ActionCode, gpioInPinLevel: PinLevel)
      ensures action == transport
      ensures action == NoAction ==>
                gpioInPinLevel == LevelOf(Bit16(InputWord(pads, outputEnable, bitbangNibbles), pin))
    {
      action := transport;
      var word := InputWord(pads, outputEnable, bitbangNibbles);
      gpioInPinLevel := if action == NoAction then LevelOf(Bit16(word, pin)) else Low;
    }

    /** adi_adrv9001_gpio_ManualInput_Configure: makes `pin` an input. */
    method ManualInputConfigure(pin: DigitalPin, transport: ActionCode) returns (action: ActionCode)
      requires Valid()
      modifies this`outputEnable
      ensures Valid()
      ensures action == transport
      ensures outputEnable == if action == NoAction then SetBit16(old(outputEnable), pin, false) else old(outputEnable)
    {
      action := transport;
      if action == NoAction {
        outputEnable := SetBit16(outputEnable, pin, false);
      }
    }

    /** adi_adrv9001_gpio_ManualOutput_Configure: makes both pins of `crumb` outputs. */
    method ManualOutputConfigure(crumb: Crumb, transport: ActionCode) returns (action: ActionCode)
      requires Valid()
      modifies this`outputEnable
      ensures Valid()
      ensures action == transport
      ensures outputEnable == if action == NoAction then old(outputEnable) | CrumbPins(crumb) else old(outputEnable)
    {
      action := transport;
      if action == NoAction {
        outputEnable := outputEnable | CrumbPins(crumb);
      }
    }

    /** adi_adrv9001_gpio_Configure: sets the configuration of `signal`, with every channel initialized. */
    method Configure(signal: GpioSignal, gpioConfig: GpioCfg, channels: seq<Channel>, transport: ActionCode)
      returns (action: ActionCode)
      requires Valid()
      modifies this`signalConfig
      ensures Valid()
      ensures action == if AllInitialized(channels) then transport else CheckParam
      ensures signalConfig == if action == NoAction then old(signalConfig)[signal := gpioConfig] else old(signalConfig)
      ensures SignalConfig(signal) == if action == NoAction then gpioConfig else old(SignalConfig(signal))
    {
      if !AllInitialized(channels) {
        return CheckParam;
      }
      action := transport;
      if action == NoAction {
        signalConfig := signalConfig[signal := gpioConfig];
      }
    }

    /** adi_adrv9001_gpio_Inspect: reports the configuration of `signal`, with every channel initialized. */
    method Inspect(signal: GpioSignal, channels: seq<Channel>, transport: ActionCode)
      returns (action: ActionCode, gpioConfig: GpioCfg)
      ensures action == if AllInitialized(channels) then transport else CheckParam
      ensures action == NoAction ==> gpioConfig == SignalConfig(signal)
    {
      if !AllInitialized(channels) {
        return CheckParam, UnassignedCfg;
      }
      action := transport;
      gpioConfig := if action == NoAction then SignalConfig(signal) else UnassignedCfg;
    }
  }

  /**
    Writing a mask register and reading it back gives the written mask; the
    other mask registers and the status word stay as they were.
   */
  method MaskSetThenGet(dev: GpioDevice, maskSelect: MaskSelect, mask: bv32, other: MaskSelect)
    returns (got: bv32)
    requires other != maskSelect
    requires dev.Valid()
    modifies dev`masks
    ensures got == mask
    ensures dev.Mask(other) == old(dev.Mask(other))
    ensures dev.status == old(dev.status)
  {
    var a := dev.GpIntMaskSet(maskSelect, mask, NoAction);
    a, got := dev.GpIntMaskGet(maskSelect, NoAction);
  }

  /**
    A source whose mask bit is high still shows in the status read-back: when
    it is the only one pending it leaves the GP_INT pin low, yet
    GpIntStatus_Get reports its bit.
   */
  method MaskedSourceStillReported(dev: GpioDevice, maskSelect: MaskSelect, s: GpIntSource)
    returns (gpIntStatus: bv32)
    requires dev.Valid() && dev.status == 0
    requires Bit32(dev.Mask(maskSelect), SourceBit(s))
    modifies dev`status
    ensures Bit32(gpIntStatus, SourceBit(s))
    ensures dev.status == 0
  {
    SourceBitUnique(s);
    dev.Latch(1 << SourceBit(s));
    assert !dev.GpIntPin(maskSelect);
    var a;
    a, gpIntStatus := dev.GpIntStatusGet(NoAction);
  }

  /**
    Setting the level of a pin that drives its output and reading it back
    gives that level; by `SetBit16Bits` every other pin keeps its level.
   */
  method PinLevelSetThenGet(dev: GpioDevice, pin: DigitalPin, level: PinLevel)
    returns (got: PinLevel)
    requires dev.DrivesOutput(pin)
    requires dev.Valid()
    modifies dev`outputLevels
    ensures got == level
    ensures dev.outputLevels == SetBit16(old(dev.outputLevels), pin, level == High)
  {
    ghost var before := dev.outputLevels;
    var a := dev.OutputPinLevelSet(pin, level, NoAction);
    a, got := dev.OutputPinLevelGet(pin, NoAction);
    SetBit16Bits(before, pin, level == High, pin);
  }

  /**
    Configuring a signal and inspecting it gives back the configuration,
    whenever every channel is initialized.
   */
  method ConfigureThenInspect(dev: GpioDevice, signal: GpioSignal, gpioConfig: GpioCfg, channels: seq<Channel>)
    returns (got: GpioCfg)
    requires AllInitialized(channels)
    requires dev.Valid()
    modifies dev`signalConfig
    ensures got == gpioConfig
  {
    var a := dev.Configure(signal, gpioConfig, channels, NoAction);
    a, got := dev.Inspect(signal, channels, NoAction);
  }
}
