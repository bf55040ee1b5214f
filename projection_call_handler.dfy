/**
 * ProjectionCallHandler: decides, for a call added while a phone-projection app is active,
 * whether the dialer's own in-call UI should be suppressed because the projecting phone
 * shows it.
 */
module ProjectionCallHandlers {
  import opened Wrappers
  import opened Telecom

  const HFP_CLIENT_SCHEME: string := "hfpc"
  const PROJECTION_STATUS_EXTRA_HANDLES_PHONE_UI: string := "android.car.projection.HANDLES_PHONE_UI"
  const PROJECTION_STATUS_EXTRA_DEVICE_STATE: string := "android.car.projection.DEVICE_STATE"
  const SETTING_EMERGENCY_CALLBACK_WINDOW_MILLIS: string := "telecom.emergency_callback_window_millis"

  /** ProjectionStatus.PROJECTION_STATE_* of the car API. */
  const PROJECTION_STATE_INACTIVE: int := 0
  const PROJECTION_STATE_READY_TO_PROJECT: int := 1
  const PROJECTION_STATE_ACTIVE_FOREGROUND: int := 2
  const PROJECTION_STATE_ACTIVE_BACKGROUND: int := 3

  /** Five minutes, the emergency-callback window when the setting is absent. */
  const DEFAULT_EMERGENCY_CALLBACK_WINDOW_MILLIS: int := 5 * 60 * 1000

  /** The BluetoothDevice.EXTRA_DEVICE parcelable of a projecting device's extras. */
  datatype DeviceExtra = Missing | NotBluetoothDevice | BluetoothDevice(address: string)

  /** A ProjectionStatus.MobileDevice: its projecting flag and the extras the handler reads. */
  datatype MobileDevice = MobileDevice(projecting: bool, deviceState: Option<int>, device: DeviceExtra)

  /** A ProjectionStatus: its state, its HANDLES_PHONE_UI extra and its connected devices. */
  datatype ProjectionStatus =
    ProjectionStatus(state: int, handlesPhoneUi: Option<bool>, devices: seq<MobileDevice>)

  /** A PhoneAccount as far as the handler reads it. */
  datatype PhoneAccount = PhoneAccount(address: Option<Uri>)

  predicate IsActive(status: ProjectionStatus) {
    status.state == PROJECTION_STATE_ACTIVE_FOREGROUND || status.state == PROJECTION_STATE_ACTIVE_BACKGROUND
  }

  /** The status's app handles the phone UI; the extra defaults to true. */
  predicate HandlesPhoneUi(status: ProjectionStatus) {
    status.handlesPhoneUi.None? || status.handlesPhoneUi.value
  }

  /** The device is projecting in the foreground; the device-state extra defaults to foreground. */
  predicate InForeground(device: MobileDevice) {
    device.projecting
    && (device.deviceState.None? || device.deviceState.value == PROJECTION_STATE_ACTIVE_FOREGROUND)
  }

  /**
   * A foreground device claims the call from `address` when it names no Bluetooth device,
   * names something that is not a Bluetooth device, or names the device with that address.
   */
  predicate Claims(device: MobileDevice, address: string) {
    match device.device
    case Missing => true
    case NotBluetoothDevice => true
    case BluetoothDevice(deviceAddress) => address == deviceAddress
  }

  /** Device `j` of status `i` makes the UI for the call from `address` suppressed. */
  predicate SuppressedBy(details: seq<ProjectionStatus>, address: string, i: int, j: int) {
    0 <= i < |details| && IsActive(details[i]) && HandlesPhoneUi(details[i])
    && 0 <= j < |details[i].devices|
    && InForeground(details[i].devices[j]) && Claims(details[i].devices[j], address)
  }

  /**
   * getHfpBluetoothAddressForCall: the scheme-specific part of the call account's address when
   * the account exists and its address uses the HFP-client scheme, else null. `phoneAccount`
   * stands for TelecomManager.getPhoneAccount.
   */
  function HfpBluetoothAddress(details: Details, phoneAccount: string -> Option<PhoneAccount>)
    : (address: Option<string>)
    ensures address.Some? <==>
              phoneAccount(details.accountHandle).Some?
              && phoneAccount(details.accountHandle).value.address.Some?
              && phoneAccount(details.accountHandle).value.address.value.scheme == HFP_CLIENT_SCHEME
    ensures address.Some? ==>
              address.value == phoneAccount(details.accountHandle).value.address.value.schemeSpecificPart
  {
    match phoneAccount(details.accountHandle)
    case None => None
    case Some(account) =>
      if account.address.None? || HFP_CLIENT_SCHEME != account.address.value.scheme then None
      else Some(account.address.value.schemeSpecificPart)
  }

  /**
   * isOutboundEmergencyCall: the handle's number is a local emergency number, `isEmergency`
   * standing for PhoneNumberUtils.isLocalEmergencyNumber; false without a handle.
   */
  function IsOutboundEmergencyCall(details: Details, isEmergency: string -> bool): (b: bool)
    ensures b <==> details.handle.Some? && isEmergency(details.handle.value.schemeSpecificPart)
  {
    if details.handle.None? then false else isEmergency(details.handle.value.schemeSpecificPart)
  }

  /** getEmergencyCallbackWindow: the secure setting, five minutes by default. */
  function EmergencyCallbackWindow(setting: Option<int>): (window: int)
    ensures setting.None? ==> window == DEFAULT_EMERGENCY_CALLBACK_WINDOW_MILLIS
    ensures setting.Some? ==> window == setting.value
  {
    if setting.Some? then setting.value else DEFAULT_EMERGENCY_CALLBACK_WINDOW_MILLIS
  }

  /**
   * isPotentialEmergencyCallback: the call is in emergency-callback mode, or the last
   * emergency call recorded in its extras lies less than the window before `now`.
   */
  function IsPotentialEmergencyCallback(details: Details, now: int, windowSetting: Option<int>): (b: bool)
    ensures b <==> details.hasEmergencyCallbackModeProperty
                   || (details.extras.Some?
                       && details.extras.value.lastEmergencyCallbackTimeMillis > 0
                       && now - details.extras.value.lastEmergencyCallbackTimeMillis
                          < EmergencyCallbackWindow(windowSetting))
  {
    if details.hasEmergencyCallbackModeProperty then true
    else if details.extras.None? then false
    else
      var last := details.extras.value.lastEmergencyCallbackTimeMillis;
      last > 0 && now - last < EmergencyCallbackWindow(windowSetting)
  }

  function IsEmergencyCall(details: Details, isEmergency: string -> bool, now: int, windowSetting: Option<int>)
    : (b: bool)
    ensures b <==> IsOutboundEmergencyCall(details, isEmergency)
                   || IsPotentialEmergencyCallback(details, now, windowSetting)
  {
    IsOutboundEmergencyCall(details, isEmergency) || IsPotentialEmergencyCallback(details, now, windowSetting)
  }

  class ProjectionCallHandler {
    var projectionState: int
    var projectionDetails: seq<ProjectionStatus>

    constructor ()
      ensures projectionState == PROJECTION_STATE_INACTIVE && projectionDetails == []
    {
      projectionState := PROJECTION_STATE_INACTIVE;
      projectionDetails := [];
    }

    /** onProjectionStatusChanged: stores the state and the details. */
    method OnProjectionStatusChanged(state: int, packageName: string, details: seq<ProjectionStatus>)
      modifies this
      ensures projectionState == state && projectionDetails == details
    {
      projectionState := state;
      projectionDetails := details;
    }

    /**
     * shouldSuppressCallUiForBluetoothDevice: true exactly when some device of some active
     * status whose app handles the phone UI projects in the foreground and claims the call.
     */
    method ShouldSuppressCallUiForBluetoothDevice(bluetoothAddress: string) returns (r: bool)
      ensures r <==> exists i, j :: SuppressedBy(projectionDetails, bluetoothAddress, i, j)
    {
      var i := 0;
      while i < |projectionDetails|
        invariant 0 <= i <= |projectionDetails|
        invariant forall i', j :: 0 <= i' < i ==> !SuppressedBy(projectionDetails, bluetoothAddress, i', j)
      {
        var status := projectionDetails[i];
        if !IsActive(status) || !HandlesPhoneUi(status) {
          i := i + 1;
          continue;
        }
        var j := 0;
        while j < |status.devices|
          invariant 0 <= j <= |status.devices|
          invariant forall j' :: 0 <= j' < j ==> !SuppressedBy(projectionDetails, bluetoothAddress, i, j')
        {
          var device := status.devices[j];
          if InForeground(device) {
            match device.device
            case Missing =>
              assert SuppressedBy(projectionDetails, bluetoothAddress, i, j);
              return true;
            case NotBluetoothDevice =>
              assert SuppressedBy(projectionDetails, bluetoothAddress, i, j);
              return true;
            case BluetoothDevice(address) =>
              if bluetoothAddress == address {
                assert SuppressedBy(projectionDetails, bluetoothAddress, i, j);
                return true;
              }
          }
          j := j + 1;
        }
        i := i + 1;
      }
      return false;
    }

    /**
     * onTelecomCallAdded: suppress the UI only while something projects (in the foreground or
     * the background), for a call with details that is no emergency call and comes over HFP,
     * when some projecting device claims it.
     */
    method OnTelecomCallAdded(telecomCall: Call, phoneAccount: string -> Option<PhoneAccount>,
                              isEmergency: string -> bool, now: int, windowSetting: Option<int>)
      returns (suppress: bool)
      ensures suppress <==>
                && (projectionState == PROJECTION_STATE_ACTIVE_BACKGROUND
                    || projectionState == PROJECTION_STATE_ACTIVE_FOREGROUND)
                && telecomCall.details.Some?
                && !IsEmergencyCall(telecomCall.details.value, isEmergency, now, windowSetting)
                && HfpBluetoothAddress(telecomCall.details.value, phoneAccount).Some?
                && exists i, j :: SuppressedBy(projectionDetails,
                                               HfpBluetoothAddress(telecomCall.details.value, phoneAccount).value, i, j)
    {
      if projectionState != PROJECTION_STATE_ACTIVE_BACKGROUND
         && projectionState != PROJECTION_STATE_ACTIVE_FOREGROUND {
        return false;
      }
      var details := telecomCall.details;
      if details.None? {
        return false;
      }
      if IsEmergencyCall(details.value, isEmergency, now, windowSetting) {
        return false;
      }
      var bluetoothAddress := HfpBluetoothAddress(details.value, phoneAccount);
      if bluetoothAddress.None? {
        return false;
      }
      suppress := ShouldSuppressCallUiForBluetoothDevice(bluetoothAddress.value);
    }

    /** onTelecomCallRemoved never asks for anything. */
    method OnTelecomCallRemoved(telecomCall: Call) returns (r: bool)
      ensures !r
    {
      return false;
    }
  }
}
