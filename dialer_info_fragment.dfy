/**
 * DialerInfoFragment: the dialed-number header of the dialer, with call and delete buttons
 * before a call and end-call and mute buttons while one connects.
 */
module DialerInfoFragments {
  import opened Wrappers
  import opened Telecom
  import opened DialBuffers

  /** What the fragment asks of the call manager. */
  datatype Effect = SafePlaceCall(number: string, bluetoothCall: bool)

  /** Which buttons updateView shows. */
  datatype Buttons = Buttons(call: bool, delete: bool, endCall: bool, mute: bool)

  /** showPreDialUi. */
  const PreDial: Buttons := Buttons(true, true, false, false)
  /** showDialingUi. */
  const Dialing: Buttons := Buttons(false, false, true, true)

  /**
   * updateView's choice: the pre-dial buttons without a primary call, the dialing buttons
   * for a connecting one, and for any other state (showInCallUi is empty) the buttons as
   * they were. `primaryState` is the primary UiCall's state, None for no primary call.
   */
  function ButtonsFor(primaryState: Option<int>, current: Buttons): (b: Buttons)
    ensures primaryState.None? ==> b.call && b.delete && !b.endCall && !b.mute
    ensures primaryState == Some(STATE_CONNECTING) ==> !b.call && !b.delete && b.endCall && b.mute
    ensures primaryState.Some? && primaryState.value != STATE_CONNECTING ==> b == current
  {
    if primaryState.None? then PreDial
    else if primaryState.value == STATE_CONNECTING then Dialing
    else current
  }

  class DialerInfoFragment {
    var number: string
    /** The title view's text. */
    var title: string
    var buttons: Buttons
    /** The body view is made visible by the dialing UI. */
    var bodyVisible: bool
    /** TelecomUtils.getFormattedNumber. */
    const format: string -> string
    var effects: seq<Effect>

    constructor (format: string -> string)
      ensures this.format == format && number == "" && effects == []
    {
      this.format := format;
      number := "";
      title := "";
      buttons := PreDial;
      bodyVisible := false;
      effects := [];
    }

    /** newInstance: the arguments carry the number only when it is not empty. */
    static function Arguments(dialNumber: Option<string>): (args: Option<Bundle>)
      ensures args.None? <==> IsEmpty(dialNumber)
      ensures args.Some? ==> args.value.dialNumber == dialNumber
    {
      if IsEmpty(dialNumber) then None else Some(Bundle(dialNumber))
    }

    /**
     * onCreateView: the buttons follow updateView; with arguments the buffer is cleared
     * and the arguments' number appended, so it then equals that number.
     */
    method OnCreateView(primaryState: Option<int>, args: Option<Bundle>)
      modifies this`number, this`title, this`buttons, this`bodyVisible
      ensures buttons == ButtonsFor(primaryState, old(buttons))
      ensures bodyVisible == (primaryState == Some(STATE_CONNECTING) || old(bodyVisible))
      ensures args.None? ==> number == old(number) && title == old(title)
      ensures args.Some? ==> number == Append("", args.value.dialNumber) && title == format(number)
      ensures args.Some? && args.value.dialNumber.Some? ==> number == args.value.dialNumber.value
    {
      UpdateView(primaryState);
      if args.Some? {
        ClearDialedNumber();
        AppendDialedNumber(args.value.dialNumber);
      }
    }

    /** The call button places a (non-Bluetooth) call only for a non-empty buffer. */
    method OnCallClick()
      modifies this`effects
      ensures |number| > 0 ==> effects == old(effects) + [SafePlaceCall(number, false)]
      ensures |number| == 0 ==> effects == old(effects)
    {
      if !IsEmpty(Some(number)) {
        effects := effects + [SafePlaceCall(number, false)];
      }
    }

    /** The delete click. */
    method OnDeleteClick()
      modifies this`number, this`title
      ensures number == DropLast(old(number))
      ensures |old(number)| > 0 ==> title == format(number)
      ensures |old(number)| == 0 ==> title == old(title)
    {
      RemoveLastDigit();
    }

    /** The delete long click clears the buffer and consumes the click. */
    method OnDeleteLongClick() returns (consumed: bool)
      modifies this`number, this`title
      ensures number == "" && title == format("") && consumed
    {
      ClearDialedNumber();
      return true;
    }

    /** appendDialedNumber: the old buffer followed by the argument ("null" for null). */
    method AppendDialedNumber(digits: Option<string>)
      modifies this`number, this`title
      ensures number == Append(old(number), digits) && title == format(number)
    {
      number := Append(number, digits);
      title := format(number);
    }

    /** removeLastDigit: a no-op on an empty buffer, otherwise one character shorter. */
    method RemoveLastDigit()
      modifies this`number, this`title
      ensures number == DropLast(old(number))
      ensures |old(number)| > 0 ==> title == format(number)
      ensures |old(number)| == 0 ==> title == old(title)
    {
      if |number| != 0 {
        number := number[..|number| - 1];
        title := format(number);
      }
    }

    /** updateView. */
    method UpdateView(primaryState: Option<int>)
      modifies this`buttons, this`bodyVisible
      ensures buttons == ButtonsFor(primaryState, old(buttons))
      ensures bodyVisible == (primaryState == Some(STATE_CONNECTING) || old(bodyVisible))
    {
      if primaryState.None? {
        buttons := PreDial;
      } else if primaryState.value == STATE_CONNECTING {
        buttons := Dialing;
        bodyVisible := true;
      }
    }

    /** clearDialedNumber empties the buffer. */
    method ClearDialedNumber()
      modifies this`number, this`title
      ensures number == "" && title == format("")
    {
      number := "";
      title := format(number);
    }
  }
}
