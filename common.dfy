/**
  Types shared by the frequency-hopping and GPIO parts of the ADRV9001 model:
  the action code every API function returns, the channel states the
  preconditions of the API speak of, and the width of the C `uint32_t`.
 */
module Adrv9001Common {

  /** An out-pointer the caller may pass as null: `None` when nothing is written. */
  datatype Option<T> = None | Some(value: T)

  /** The C `uint32_t` used for table sizes and entry counts. */
  newtype u32 = x: int | 0 <= x < 0x1_0000_0000

  /**
    The value every API function returns: `NoAction` (ADI_COMMON_ACT_NO_ACTION)
    when the call succeeded, otherwise the recovery action the caller has to
    take, graded by severity. The numeric codes are in adi_common_error.h,
    which is not part of this model.
   */
  datatype ActionCode =
    | NoAction
    | CheckParam      // a parameter or the device state was invalid for this call
    | ResetInterface  // the control interface (SPI / mailbox) failed
    | ResetFeature    // the feature has to be re-run
    | ResetModule     // the module has to be reset
    | ResetFull       // the whole device has to be reset

  /**
    The state of one RF channel. `Uninitialized` stands for a channel that
    the device has not yet brought up: no precondition of the API admits it
    ("after initialization").
   */
  datatype ChannelState = Uninitialized | Standby | Calibrated | Primed | RfEnabled

  /** A channel as the API's preconditions see it: its state and whether it hops. */
  datatype Channel = Channel(state: ChannelState, fhEnabled: bool)

  /** True when every channel is in STANDBY. */
  predicate AllStandby(channels: seq<Channel>)
  {
    forall i :: 0 <= i < |channels| ==> channels[i].state == Standby
  }

  /** True when every channel has been initialized (any of STANDBY, CALIBRATED, PRIMED, RF_ENABLED). */
  predicate AllInitialized(channels: seq<Channel>)
  {
    forall i :: 0 <= i < |channels| ==> channels[i].state != Uninitialized
  }
}
