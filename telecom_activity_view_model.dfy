/**
 * TelecomActivityViewModel: the dialer's Bluetooth error message, the app state derived from
 * it (content, Bluetooth error page or emergency dial pad), and the event that asks the UI to
 * refresh when the connected HFP device goes away.
 */
module TelecomActivityViewModels {
  import opened Wrappers
  import opened Resources
  import BluetoothStateLiveDatas

  /** The error string that means "no error". */
  const NO_BT_ERROR: string := "NO_ERROR"

  /** DialerAppState. */
  const DEFAULT: int := 0
  const BLUETOOTH_ERROR: int := 1
  const EMERGENCY_DIALPAD: int := 2

  /** The string resources the error message is taken from. */
  const BLUETOOTH_UNAVAILABLE: Text := StringRes("bluetooth_unavailable")
  const BLUETOOTH_DISABLED: Text := StringRes("bluetooth_disabled")
  const BLUETOOTH_UNPAIRED: Text := StringRes("bluetooth_unpaired")
  const NO_HFP: Text := StringRes("no_hfp")

  /** The error message that means "no error". */
  const NoError: Text := Plain(NO_BT_ERROR)

  datatype BluetoothDevice = BluetoothDevice(address: string)

  // ---------------------------------------------------------------------------------------
  // DialerAppStateLiveData
  // ---------------------------------------------------------------------------------------

  /**
   * The state updateDialerAppState moves to from `current` when the error message is
   * `errorMessage` (null when the error live data has no value).
   */
  function NextAppState(current: int, errorMessage: Option<Text>): int
  {
    if errorMessage != Some(NoError) then
      if current == EMERGENCY_DIALPAD then EMERGENCY_DIALPAD else BLUETOOTH_ERROR
    else DEFAULT
  }

  /**
   * The app state shows the content (DEFAULT) exactly when there is no Bluetooth error; the
   * emergency dial pad is left only once the error clears; any other error shows the error page.
   */
  lemma NextAppStateMeaning(current: int, errorMessage: Option<Text>)
    ensures NextAppState(current, errorMessage) == DEFAULT <==> errorMessage == Some(NoError)
    ensures current == EMERGENCY_DIALPAD ==>
              (NextAppState(current, errorMessage) == EMERGENCY_DIALPAD <==> errorMessage != Some(NoError))
    ensures current != EMERGENCY_DIALPAD ==>
              (NextAppState(current, errorMessage) == BLUETOOTH_ERROR <==> errorMessage != Some(NoError))
  {
  }

  /** Updating twice from the same error message changes nothing the second time. */
  lemma NextAppStateIdempotent(current: int, errorMessage: Option<Text>)
    ensures NextAppState(NextAppState(current, errorMessage), errorMessage) == NextAppState(current, errorMessage)
  {
  }

  class DialerAppStateLiveData {
    /** The live data's value. */
    var value: int
    /** The values handed to MediatorLiveData.setValue, each of which notifies the observers. */
    var dispatched: seq<int>

    /**
     * The value is a DialerAppState and the last one dispatched, and observers are never
     * notified twice in a row of the same state.
     */
    ghost predicate Valid()
      reads this
    {
      && value in {DEFAULT, BLUETOOTH_ERROR, EMERGENCY_DIALPAD}
      && |dispatched| > 0
      && dispatched[|dispatched| - 1] == value
      && BluetoothStateLiveDatas.NoRepeats(dispatched)
    }

    /** The constructor sets DEFAULT, which differs from the initial null and so is dispatched. */
    constructor ()
      ensures Valid()
      ensures value == DEFAULT && dispatched == [DEFAULT]
    {
      value := DEFAULT;
      dispatched := [DEFAULT];
    }

    /** setValue: the value is set and dispatched only when it differs from the current one. */
    method SetValue(newValue: int)
      requires Valid()
      requires newValue in {DEFAULT, BLUETOOTH_ERROR, EMERGENCY_DIALPAD}
      modifies this
      ensures Valid()
      ensures value == newValue
      ensures dispatched == old(dispatched) + if old(value) != newValue then [newValue] else []
    {
      if value != newValue {
        value := newValue;
        dispatched := dispatched + [newValue];
      }
    }

    /** updateDialerAppState, run whenever the error message changes. */
    method UpdateDialerAppState(errorMessage: Option<Text>)
      requires Valid()
      modifies this
      ensures Valid()
      ensures value == NextAppState(old(value), errorMessage)
      ensures dispatched == old(dispatched) + if old(value) != value then [value] else []
    {
      if errorMessage != Some(NoError) {
        if value == EMERGENCY_DIALPAD {
          return;
        }
        SetValue(BLUETOOTH_ERROR);
        return;
      }
      SetValue(DEFAULT);
    }
  }

  // ---------------------------------------------------------------------------------------
  // ErrorStringLiveData
  // ---------------------------------------------------------------------------------------

  /** isHfpConnected: the HFP device list is there and not empty. */
  predicate IsHfpConnected(hfpDevices: Option<seq<BluetoothDevice>>)
  {
    hfpDevices.Some? && |hfpDevices.value| > 0
  }

  /** isBluetoothEnabled: the state is unknown (null) or anything but DISABLED. */
  predicate IsBluetoothEnabled(bluetoothState: Option<int>)
  {
    bluetoothState.None? || bluetoothState.value != BluetoothStateLiveDatas.DISABLED
  }

  /** hasPairedDevices: the paired set is unknown (null) or not empty. */
  predicate HasPairedDevices(pairedDevices: Option<set<BluetoothDevice>>)
  {
    pairedDevices.None? || |pairedDevices.value| > 0
  }

  /** The error message update leaves for the given Bluetooth state. */
  function ErrorFor(hfpDevices: Option<seq<BluetoothDevice>>, pairedDevices: Option<set<BluetoothDevice>>,
                    bluetoothState: Option<int>): Text
  {
    if IsHfpConnected(hfpDevices) then NoError
    else if !IsBluetoothEnabled(bluetoothState) then BLUETOOTH_DISABLED
    else if !HasPairedDevices(pairedDevices) then BLUETOOTH_UNPAIRED
    else NO_HFP
  }

  /**
   * The message is "no error" exactly when an HFP device is connected; otherwise it names the
   * first of Bluetooth off, nothing paired, no HFP connection that applies.
   */
  lemma ErrorForMeaning(hfpDevices: Option<seq<BluetoothDevice>>, pairedDevices: Option<set<BluetoothDevice>>,
                        bluetoothState: Option<int>)
    ensures ErrorFor(hfpDevices, pairedDevices, bluetoothState) == NoError <==> IsHfpConnected(hfpDevices)
    ensures ErrorFor(hfpDevices, pairedDevices, bluetoothState) == BLUETOOTH_DISABLED <==>
              !IsHfpConnected(hfpDevices) && bluetoothState == Some(BluetoothStateLiveDatas.DISABLED)
    ensures ErrorFor(hfpDevices, pairedDevices, bluetoothState) == BLUETOOTH_UNPAIRED <==>
              !IsHfpConnected(hfpDevices) && IsBluetoothEnabled(bluetoothState) && pairedDevices == Some({})
    ensures ErrorFor(hfpDevices, pairedDevices, bluetoothState) == NO_HFP <==>
              !IsHfpConnected(hfpDevices) && IsBluetoothEnabled(bluetoothState) && HasPairedDevices(pairedDevices)
    ensures ErrorFor(hfpDevices, pairedDevices, bluetoothState) != BLUETOOTH_UNAVAILABLE
  {
    if pairedDevices.Some? && |pairedDevices.value| == 0 {
      assert pairedDevices.value == {};
    }
  }

  /**
   * Unknown inputs count in favour of Bluetooth: with nothing known yet, the message is the
   * mildest error, no HFP connection.
   */
  lemma ErrorForUnknownInputs()
    ensures ErrorFor(None, None, None) == NO_HFP
    ensures forall paired: Option<set<BluetoothDevice>>, state: Option<int> ::
              ErrorFor(None, paired, state) == ErrorFor(Some([]), paired, state)
  {
  }

  class ErrorStringLiveData {
    /** The live data's value. */
    var value: Text
    /** The values handed to MediatorLiveData.setValue, each of which notifies the observers. */
    var dispatched: seq<Text>

    /** The value is one of the four messages update can leave, and the last one dispatched. */
    ghost predicate Valid()
      reads this
    {
      && value in {NoError, BLUETOOTH_DISABLED, BLUETOOTH_UNPAIRED, NO_HFP}
      && |dispatched| > 0
      && dispatched[|dispatched| - 1] == value
    }

    /** The constructor sets NO_BT_ERROR. */
    constructor ()
      ensures Valid()
      ensures value == NoError && dispatched == [NoError]
    {
      value := NoError;
      dispatched := [NoError];
    }

    /**
     * update, run whenever the HFP list, the paired set or the adapter state changes: the
     * message becomes ErrorFor of the three. "No error" is dispatched only when it is not the
     * message already; an error message is dispatched every time, even when it is unchanged.
     */
    method Update(hfpDevices: Option<seq<BluetoothDevice>>, pairedDevices: Option<set<BluetoothDevice>>,
                  bluetoothState: Option<int>)
      requires Valid()
      modifies this
      ensures Valid()
      ensures value == ErrorFor(hfpDevices, pairedDevices, bluetoothState)
      ensures value == NoError ==> dispatched == old(dispatched) + if old(value) != NoError then [NoError] else []
      ensures value != NoError ==> dispatched == old(dispatched) + [value]
    {
      var isBluetoothEnabled := IsBluetoothEnabled(bluetoothState);
      var hasPairedDevices := HasPairedDevices(pairedDevices);
      var isHfpConnected := IsHfpConnected(hfpDevices);
      if isHfpConnected {
        if value != NoError {
          SetValue(NoError);
        }
      } else if !isBluetoothEnabled {
        SetValue(BLUETOOTH_DISABLED);
      } else if !hasPairedDevices {
        SetValue(BLUETOOTH_UNPAIRED);
      } else {
        SetValue(NO_HFP);
      }
    }

    /** MediatorLiveData.setValue: set and dispatch. */
    method SetValue(newValue: Text)
      modifies this
      ensures value == newValue && dispatched == old(dispatched) + [newValue]
    {
      value := newValue;
      dispatched := dispatched + [newValue];
    }
  }

  // ---------------------------------------------------------------------------------------
  // RefreshUiEvent
  // ---------------------------------------------------------------------------------------

  /** deviceListIsEmpty: no list, or an empty one. */
  predicate DeviceListIsEmpty(hfpDevices: Option<seq<BluetoothDevice>>)
  {
    hfpDevices.None? || |hfpDevices.value| == 0
  }

  /** getFirstDevice: the list's first device, null when the list is empty or missing. */
  function FirstDevice(hfpDevices: Option<seq<BluetoothDevice>>): (d: Option<BluetoothDevice>)
    ensures d.Some? ==> hfpDevices.Some? && d.value in hfpDevices.value
    ensures d.None? <==> DeviceListIsEmpty(hfpDevices)
  {
    if DeviceListIsEmpty(hfpDevices) then None else Some(hfpDevices.value[0])
  }

  /** Whether update fires the refresh event: a remembered device is no longer in the list. */
  predicate Fires(remembered: Option<BluetoothDevice>, hfpDevices: Option<seq<BluetoothDevice>>)
  {
    remembered.Some? && !(!DeviceListIsEmpty(hfpDevices) && remembered.value in hfpDevices.value)
  }

  /**
   * The event fires exactly when a remembered device is missing from the new list, and a list
   * delivered twice fires at most the first time.
   */
  lemma FiresMeaning(remembered: Option<BluetoothDevice>, hfpDevices: Option<seq<BluetoothDevice>>)
    ensures Fires(remembered, hfpDevices) <==>
              remembered.Some? && (hfpDevices.None? || remembered.value !in hfpDevices.value)
    ensures !Fires(FirstDevice(hfpDevices), hfpDevices)
  {
  }

  class RefreshUiEvent {
    /** The device remembered from the last list, null when there was none. */
    var bluetoothDevice: Option<BluetoothDevice>
    /** The values this SingleLiveEvent has been given, each delivered once to its observer. */
    var events: seq<bool>

    constructor ()
      ensures bluetoothDevice.None? && events == []
    {
      bluetoothDevice := None;
      events := [];
    }

    /** update, run on every HFP device list change. */
    method Update(hfpDevices: Option<seq<BluetoothDevice>>)
      modifies this
      ensures events == old(events) + if Fires(old(bluetoothDevice), hfpDevices) then [true] else []
      ensures bluetoothDevice == FirstDevice(hfpDevices)
    {
      if bluetoothDevice.Some? && !ListContainsDevice(hfpDevices, bluetoothDevice.value) {
        events := events + [true];
      }
      bluetoothDevice := FirstDevice(hfpDevices);
    }

    /** listContainsDevice: the list is there, not empty, and holds the device. */
    static function ListContainsDevice(hfpDevices: Option<seq<BluetoothDevice>>, device: BluetoothDevice): (b: bool)
      ensures b <==> hfpDevices.Some? && device in hfpDevices.value
    {
      !DeviceListIsEmpty(hfpDevices) && device in hfpDevices.value
    }
  }

  // ---------------------------------------------------------------------------------------
  // TelecomActivityViewModel
  // ---------------------------------------------------------------------------------------

  class TelecomActivityViewModel {
    /** The error-string live data; null when there is no Bluetooth adapter. */
    const errorStringLiveData: ErrorStringLiveData?
    /** The refresh event; null when there is no Bluetooth adapter. */
    const refreshTabsLiveData: RefreshUiEvent?
    const dialerAppStateLiveData: DialerAppStateLiveData

    /** getErrorMessage's value: fixed at bluetooth_unavailable when there is no adapter. */
    function ErrorMessage(): Text
      reads this, errorStringLiveData
    {
      if errorStringLiveData == null then BLUETOOTH_UNAVAILABLE else errorStringLiveData.value
    }

    ghost predicate Valid()
      reads this, errorStringLiveData, dialerAppStateLiveData
    {
      && (errorStringLiveData == null <==> refreshTabsLiveData == null)
      && (errorStringLiveData != null ==> errorStringLiveData.Valid())
      && dialerAppStateLiveData.Valid()
      && (errorStringLiveData == null ==> dialerAppStateLiveData.value != DEFAULT)
    }

    /**
     * The constructor: without an adapter the error message is bluetooth_unavailable and there
     * is no refresh event; with one, the error message starts as NO_BT_ERROR. Either way the app
     * state then takes the error message into account once.
     */
    constructor (hasAdapter: bool)
      ensures Valid()
      ensures (errorStringLiveData != null) == hasAdapter
      ensures ErrorMessage() == if hasAdapter then NoError else BLUETOOTH_UNAVAILABLE
      ensures dialerAppStateLiveData.value == if hasAdapter then DEFAULT else BLUETOOTH_ERROR
      ensures fresh(dialerAppStateLiveData)
      ensures errorStringLiveData != null ==> fresh(errorStringLiveData) && fresh(refreshTabsLiveData)
    {
      var errorLive: ErrorStringLiveData? := null;
      var refreshLive: RefreshUiEvent? := null;
      var message := BLUETOOTH_UNAVAILABLE;
      if hasAdapter {
        errorLive := new ErrorStringLiveData();
        refreshLive := new RefreshUiEvent();
        message := errorLive.value;
      }
      var appState := new DialerAppStateLiveData();
      appState.UpdateDialerAppState(Some(message));
      errorStringLiveData := errorLive;
      refreshTabsLiveData := refreshLive;
      dialerAppStateLiveData := appState;
    }

    /**
     * A change of the HFP list, the paired set or the adapter state, with the adapter present:
     * the error message is recomputed and the refresh event sees the HFP list. The app state is
     * a source observer of the error message, so it follows the message only when the message
     * is dispatched: always for an error, and for "no error" only when it replaces an error.
     * A "no error" that stays "no error" leaves the app state alone, even on the emergency
     * dial pad.
     */
    method OnBluetoothChanged(hfpDevices: Option<seq<BluetoothDevice>>, pairedDevices: Option<set<BluetoothDevice>>,
                              bluetoothState: Option<int>)
      requires Valid()
      requires errorStringLiveData != null
      modifies errorStringLiveData, refreshTabsLiveData, dialerAppStateLiveData
      ensures Valid()
      ensures ErrorMessage() == ErrorFor(hfpDevices, pairedDevices, bluetoothState)
      ensures var message := ErrorFor(hfpDevices, pairedDevices, bluetoothState);
              var dispatchedMessage := message != NoError || old(errorStringLiveData.value) != NoError;
              && errorStringLiveData.dispatched ==
                   old(errorStringLiveData.dispatched) + (if dispatchedMessage then [message] else [])
              && (dispatchedMessage ==>
                    dialerAppStateLiveData.value == NextAppState(old(dialerAppStateLiveData.value), Some(message))
                    && dialerAppStateLiveData.dispatched ==
                         old(dialerAppStateLiveData.dispatched)
                         + (if old(dialerAppStateLiveData.value) != dialerAppStateLiveData.value
                            then [dialerAppStateLiveData.value] else []))
              && (!dispatchedMessage ==>
                    dialerAppStateLiveData.value == old(dialerAppStateLiveData.value)
                    && dialerAppStateLiveData.dispatched == old(dialerAppStateLiveData.dispatched))
      ensures refreshTabsLiveData.events ==
                old(refreshTabsLiveData.events)
                + (if Fires(old(refreshTabsLiveData.bluetoothDevice), hfpDevices) then [true] else [])
      ensures refreshTabsLiveData.bluetoothDevice == FirstDevice(hfpDevices)
    {
      var before := |errorStringLiveData.dispatched|;
      errorStringLiveData.Update(hfpDevices, pairedDevices, bluetoothState);
      refreshTabsLiveData.Update(hfpDevices);
      if |errorStringLiveData.dispatched| > before {
        dialerAppStateLiveData.UpdateDialerAppState(Some(errorStringLiveData.value));
      }
    }

    /** The user opens the emergency dial pad. */
    method ShowEmergencyDialpad()
      requires Valid()
      modifies dialerAppStateLiveData
      ensures Valid()
      ensures dialerAppStateLiveData.value == EMERGENCY_DIALPAD
    {
      dialerAppStateLiveData.SetValue(EMERGENCY_DIALPAD);
    }
  }
}
