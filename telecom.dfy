/**
 * The parts of the android.telecom API that the dialer reads: call states, audio routes and
 * the data a telecom Call carries. The numeric constants are the public Android SDK values.
 */
module Telecom {
  import opened Wrappers

  // android.telecom.Call.STATE_*
  const STATE_NEW: int := 0
  const STATE_DIALING: int := 1
  const STATE_RINGING: int := 2
  const STATE_HOLDING: int := 3
  const STATE_ACTIVE: int := 4
  const STATE_DISCONNECTED: int := 7
  const STATE_SELECT_PHONE_ACCOUNT: int := 8
  const STATE_CONNECTING: int := 9
  const STATE_DISCONNECTING: int := 10
  const STATE_PULLING_CALL: int := 11

  // android.telecom.CallAudioState.ROUTE_* (bit flags)
  const ROUTE_EARPIECE: int := 1
  const ROUTE_BLUETOOTH: int := 2
  const ROUTE_WIRED_HEADSET: int := 4
  const ROUTE_SPEAKER: int := 8

  /** A URI reduced to the two parts the dialer inspects. */
  datatype Uri = Uri(scheme: string, schemeSpecificPart: string)

  datatype DisconnectCause = DisconnectCause(causeLabel: string)

  datatype GatewayInfo = GatewayInfo(originalAddress: Uri)

  /** The extras bundle of a call; a missing long reads as 0, as Bundle.getLong does. */
  datatype CallExtras = CallExtras(lastEmergencyCallbackTimeMillis: int)

  /** Call.Details, restricted to the fields the dialer reads. */
  datatype Details = Details(
    telecomCallId: string,
    connectTimeMillis: int,
    disconnectCause: Option<DisconnectCause>,
    gatewayInfo: Option<GatewayInfo>,
    handle: Option<Uri>,
    accountHandle: string,
    hasEmergencyCallbackModeProperty: bool,
    extras: Option<CallExtras>)

  /**
   * An android.telecom.Call. `id` stands for object identity (the dialer compares calls
   * with `==`); `parent` is the identity of the conference call this call belongs to.
   */
  datatype Call = Call(
    id: nat,
    state: int,
    parent: Option<nat>,
    children: seq<nat>,
    details: Option<Details>)
}
