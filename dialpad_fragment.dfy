/**
 * DialpadFragment: the dialpad of the telecom activity, in dial, emergency or in-call mode.
 * Its buffer of dialed digits is edited by key presses and by the delete button, and
 * presentDialedNumber mirrors the buffer into the title, the delete button and the contact
 * name.
 */
module DialpadFragments {
  import opened Wrappers
  import opened Telecom
  import opened Resources
  import opened DialKeys
  import opened DialBuffers

  const MAX_DIAL_NUMBER: int := 20
  const PLAY_DTMF_TONE: int := 1

  const MODE_IN_CALL: int := 1
  const MODE_DIAL: int := 2
  const MODE_EMERGENCY: int := 3

  /** What the fragment asks of the call manager, the active call and the tone generator. */
  datatype Effect =
    | PlaceCall(number: string)
    | CallVoicemail
    | PlayDtmfTone(call: Call, digit: char)
    | StopDtmfTone(call: Call)
    | StartTone(tone: int)
    | StopTone

  /** The title text of presentDialedNumber for a buffer, `format` standing for TelecomUtils.getFormattedNumber. */
  function Title(mode: int, number: string, format: string -> string): (t: Text)
    ensures |number| == 0 && mode == MODE_DIAL ==> t == StringRes("dial_a_number")
    ensures |number| == 0 && mode == MODE_EMERGENCY ==> t == StringRes("emergency_call_description")
    ensures |number| == 0 && mode != MODE_DIAL && mode != MODE_EMERGENCY ==> t == Plain("")
    ensures 0 < |number| <= MAX_DIAL_NUMBER && mode == MODE_IN_CALL ==> t == Plain(number)
    ensures 0 < |number| <= MAX_DIAL_NUMBER && mode != MODE_IN_CALL ==> t == Plain(format(number))
    ensures |number| > MAX_DIAL_NUMBER ==>
              t.Plain? && |t.value| == MAX_DIAL_NUMBER && number == number[..|number| - MAX_DIAL_NUMBER] + t.value
  {
    if |number| == 0 then
      if mode == MODE_DIAL then StringRes("dial_a_number")
      else if mode == MODE_EMERGENCY then StringRes("emergency_call_description")
      else Plain("")
    else if |number| <= MAX_DIAL_NUMBER then
      if mode == MODE_IN_CALL then Plain(number) else Plain(format(number))
    else
      Plain(number[|number| - MAX_DIAL_NUMBER..])
  }

  /** The delete button of presentDialedNumber: shown exactly for a non-empty buffer outside a call. */
  function DeleteShown(mode: int, number: string): (shown: bool)
    ensures shown <==> |number| > 0 && mode != MODE_IN_CALL
  {
    if |number| == 0 then false
    else if |number| <= MAX_DIAL_NUMBER then mode != MODE_IN_CALL
    else mode != MODE_IN_CALL
  }

  class DialpadFragment {
    var mode: int
    var number: string
    var dtmfToneEnabled: bool
    var activeCall: Option<Call>
    /** getActivity() != null. */
    var attached: bool
    /** The display-name view exists in the layout (an OEM may remove it). */
    const hasDisplayNameView: bool
    /** TelecomUtils.getFormattedNumber. */
    const format: string -> string
    /** The display name of InMemoryPhoneBook.lookupContactEntry for a number, None for no contact. */
    const lookupDisplayName: string -> Option<string>

    var title: Text
    var titleCentered: bool
    var deleteVisible: bool
    var callButtonVisible: bool
    var callStateVisible: bool
    /** The display-name view's text, None when the view is gone. */
    var displayName: Option<string>
    var effects: seq<Effect>

    constructor (attached: bool, hasDisplayNameView: bool, format: string -> string,
                 lookupDisplayName: string -> Option<string>)
      ensures this.attached == attached && this.hasDisplayNameView == hasDisplayNameView
      ensures this.format == format && this.lookupDisplayName == lookupDisplayName
      ensures mode == 0 && number == "" && !dtmfToneEnabled && activeCall == None && effects == []
    {
      this.attached := attached;
      this.hasDisplayNameView := hasDisplayNameView;
      this.format := format;
      this.lookupDisplayName := lookupDisplayName;
      mode := 0;
      number := "";
      dtmfToneEnabled := false;
      activeCall := None;
      title := Plain("");
      titleCentered := true;
      deleteVisible := false;
      callButtonVisible := false;
      callStateVisible := false;
      displayName := None;
      effects := [];
    }

    /** The views presentDialedNumber writes. */
    function Views(): (Text, bool, bool, Option<string>)
      reads this
    {
      (title, titleCentered, deleteVisible, displayName)
    }

    /** The views show the buffer as presentDialedNumber lays it out, when there is an activity. */
    predicate ShowsNumber()
      reads this
    {
      attached ==>
        title == Title(mode, number, format) && titleCentered == (|number| == 0)
        && deleteVisible == DeleteShown(mode, number)
        && (mode != MODE_IN_CALL && hasDisplayNameView ==> displayName == lookupDisplayName(number))
    }

    /**
     * What presentDialedNumber leaves, from the views `before`: the buffer shown as
     * ShowsNumber lays it out; without an activity every view as it was; in a call or without
     * the name view, the contact name as it was.
     */
    predicate Presents(before: (Text, bool, bool, Option<string>))
      reads this
    {
      && ShowsNumber()
      && (!attached ==> Views() == before)
      && (attached && (mode == MODE_IN_CALL || !hasDisplayNameView) ==> displayName == before.3)
    }

    /**
     * presentDialedNumber: nothing without an activity; otherwise the contact name outside a
     * call, then the title, its gravity and the delete button for the buffer.
     */
    method PresentDialedNumber()
      modifies this`title, this`titleCentered, this`deleteVisible, this`displayName
      ensures Presents(old(Views()))
    {
      if !attached {
        return;
      }
      if mode != MODE_IN_CALL {
        PresentContactName();
      }
      if |number| == 0 {
        titleCentered := true;
        deleteVisible := false;
        if mode == MODE_DIAL {
          title := StringRes("dial_a_number");
        } else if mode == MODE_EMERGENCY {
          title := StringRes("emergency_call_description");
        } else {
          title := Plain("");
        }
      } else if |number| > 0 && |number| <= MAX_DIAL_NUMBER {
        titleCentered := false;
        if mode == MODE_IN_CALL {
          title := Plain(number);
          deleteVisible := false;
        } else {
          title := Plain(format(number));
          deleteVisible := true;
        }
      } else {
        title := Plain(number[|number| - MAX_DIAL_NUMBER..]);
        titleCentered := false;
        if mode == MODE_IN_CALL {
          deleteVisible := false;
        } else {
          deleteVisible := true;
        }
      }
    }

    /** presentContactName: the looked-up name, or an empty and hidden view for no contact. */
    method PresentContactName()
      modifies this`displayName
      ensures hasDisplayNameView ==> displayName == lookupDisplayName(number)
      ensures !hasDisplayNameView ==> displayName == old(displayName)
    {
      if !hasDisplayNameView {
        return;
      }
      var contact := lookupDisplayName(number);
      if contact.None? {
        displayName := None;
        return;
      }
      displayName := contact;
    }

    /**
     * onCreateView: the mode comes from the arguments and a saved bundle is appended to the
     * buffer. In a call the delete and call buttons are gone, the call state shows and the
     * active call is the view model's primary call; otherwise the call button shows.
     */
    method OnCreateView(argumentMode: int, saved: Option<Bundle>, primaryCall: Option<Call>)
      modifies this`mode, this`number, this`titleCentered, this`deleteVisible, this`callButtonVisible,
               this`callStateVisible, this`activeCall
      ensures mode == argumentMode && number == Restore(old(number), saved)
      ensures titleCentered && !deleteVisible
      ensures mode == MODE_IN_CALL ==> !callButtonVisible && callStateVisible && activeCall == primaryCall
      ensures mode != MODE_IN_CALL ==> callButtonVisible && !callStateVisible && activeCall == old(activeCall)
    {
      mode := argumentMode;
      if saved.Some? {
        number := Append(number, saved.value.dialNumber);
      }
      titleCentered := true;
      if mode == MODE_IN_CALL {
        deleteVisible := false;
        callButtonVisible := false;
        callStateVisible := true;
        activeCall := primaryCall;
      } else {
        callButtonVisible := true;
        deleteVisible := false;
        callStateVisible := false;
      }
    }

    /**
     * The call button outside a call: a non-empty buffer is placed as a call and then
     * emptied without presenting; an empty one is set to the last outgoing number.
     */
    method OnCallButtonClick(lastOutgoingCall: Option<string>)
      requires mode != MODE_IN_CALL
      modifies this`number, this`effects, this`title, this`titleCentered, this`deleteVisible, this`displayName
      ensures |old(number)| > 0 ==>
                effects == old(effects) + [PlaceCall(old(number))] && number == "" && Views() == old(Views())
      ensures |old(number)| == 0 ==>
                effects == old(effects) && number == SetTo(lastOutgoingCall) && Presents(old(Views()))
    {
      if |number| != 0 {
        effects := effects + [PlaceCall(number)];
        number := "";
      } else {
        SetDialedNumber(lastOutgoingCall);
      }
    }

    /** The delete button's click. */
    method OnDeleteClick()
      modifies this`number, this`title, this`titleCentered, this`deleteVisible, this`displayName
      ensures number == DropLast(old(number)) && Presents(old(Views()))
    {
      RemoveLastDigit();
    }

    /** The delete button's long click clears the buffer and consumes the click. */
    method OnDeleteLongClick() returns (consumed: bool)
      modifies this`number, this`title, this`titleCentered, this`deleteVisible, this`displayName
      ensures number == "" && Presents(old(Views())) && consumed
    {
      ClearDialedNumber();
      return true;
    }

    /** onResume: DTMF tones follow the setting (default on), then the buffer is presented. */
    method OnResume(dtmfSetting: Option<int>)
      modifies this`dtmfToneEnabled, this`title, this`titleCentered, this`deleteVisible, this`displayName
      ensures dtmfToneEnabled <==> (dtmfSetting.None? || dtmfSetting.value == PLAY_DTMF_TONE)
      ensures Presents(old(Views()))
    {
      var setting := if dtmfSetting.Some? then dtmfSetting.value else 1;
      dtmfToneEnabled := setting == PLAY_DTMF_TONE;
      PresentDialedNumber();
    }

    /** onPause stops the tone generator. */
    method OnPause()
      modifies this`effects
      ensures effects == old(effects) + [StopTone]
    {
      effects := effects + [StopTone];
    }

    /** onSaveInstanceState saves the buffer. */
    method OnSaveInstanceState() returns (saved: Bundle)
      ensures saved == SaveInstanceState(number)
      ensures Restore("", Some(saved)) == number
    {
      saved := Bundle(Some(number));
      RestoreSaved(number);
    }

    /**
     * onKeyLongPressed: KEYCODE_0 replaces the last digit by "+" (on an empty buffer it only
     * appends "+"), KEYCODE_1 calls voicemail, any other key does nothing.
     */
    method OnKeyLongPressed(keycode: int)
      modifies this`number, this`effects, this`title, this`titleCentered, this`deleteVisible, this`displayName
      ensures keycode == KEYCODE_0 ==>
                number == DropLast(old(number)) + "+" && effects == old(effects) && Presents(old(Views()))
      ensures keycode == KEYCODE_1 ==> number == old(number) && effects == old(effects) + [CallVoicemail]
      ensures keycode == KEYCODE_0 && |old(number)| > 0 ==>
                |number| == |old(number)| && number[..|number| - 1] == old(number)[..|number| - 1]
                && number[|number| - 1] == '+'
      ensures keycode != KEYCODE_0 && keycode != KEYCODE_1 ==>
                number == old(number) && effects == old(effects) && Views() == old(Views())
      ensures keycode == KEYCODE_1 ==> Views() == old(Views())
    {
      if keycode == KEYCODE_0 {
        RemoveLastDigit();
        AppendDialedNumber("+");
      } else if keycode == KEYCODE_1 {
        effects := effects + [CallVoicemail];
      }
    }

    /**
     * onKeyDown: appends the key's character; with DTMF tones on, plays that character on
     * the active call, or the key's tone locally without one. A key outside the value map
     * makes the lookup dereference null.
     */
    method OnKeyDown(keycode: int) returns (r: Result<()>)
      modifies this`number, this`effects, this`title, this`titleCentered, this`deleteVisible, this`displayName
      ensures !IsDialKeyCode(keycode) ==>
                r == Throws(NullPointerException) && number == old(number) && effects == old(effects)
                && Views() == old(Views())
      ensures IsDialKeyCode(keycode) ==>
                r == Ok(()) && number == old(number) + [DialChar(keycode)] && Presents(old(Views()))
      ensures IsDialKeyCode(keycode) && !dtmfToneEnabled ==> effects == old(effects)
      ensures IsDialKeyCode(keycode) && dtmfToneEnabled && activeCall.Some? ==>
                effects == old(effects) + [PlayDtmfTone(activeCall.value, DialChar(keycode))]
      ensures IsDialKeyCode(keycode) && dtmfToneEnabled && activeCall.None? ==>
                effects == old(effects) + [StartTone(Tone(keycode))]
    {
      TablesCoverDialKeys(keycode);
      if keycode !in DialCharMap {
        return Throws(NullPointerException);
      }
      var digit := [DialCharMap[keycode]];
      AppendDialedNumber(digit);
      if !dtmfToneEnabled {
        return Ok(());
      }
      if activeCall.Some? {
        effects := effects + [PlayDtmfTone(activeCall.value, DialCharMap[keycode])];
      } else {
        effects := effects + [StartTone(ToneMap[keycode])];
      }
      return Ok(());
    }

    /** onKeyUp: with DTMF tones on, stops the active call's DTMF tone, or the local tone. */
    method OnKeyUp(keycode: int)
      modifies this`effects
      ensures !dtmfToneEnabled ==> effects == old(effects)
      ensures dtmfToneEnabled && activeCall.Some? ==> effects == old(effects) + [StopDtmfTone(activeCall.value)]
      ensures dtmfToneEnabled && activeCall.None? ==> effects == old(effects) + [StopTone]
    {
      if !dtmfToneEnabled {
        return;
      }
      if activeCall.Some? {
        effects := effects + [StopDtmfTone(activeCall.value)];
      } else {
        effects := effects + [StopTone];
      }
    }

    /** setDialedNumber: the buffer becomes the number, or empty for a null or empty one. */
    method SetDialedNumber(newNumber: Option<string>)
      modifies this`number, this`title, this`titleCentered, this`deleteVisible, this`displayName
      ensures number == SetTo(newNumber) && Presents(old(Views()))
    {
      number := "";
      if !IsEmpty(newNumber) {
        number := Append(number, newNumber);
      }
      PresentDialedNumber();
    }

    /** clearDialedNumber: the buffer becomes empty. */
    method ClearDialedNumber()
      modifies this`number, this`title, this`titleCentered, this`deleteVisible, this`displayName
      ensures number == "" && Presents(old(Views()))
    {
      number := "";
      PresentDialedNumber();
    }

    /** removeLastDigit: drops the last character of a non-empty buffer. */
    method RemoveLastDigit()
      modifies this`number, this`title, this`titleCentered, this`deleteVisible, this`displayName
      ensures number == DropLast(old(number)) && Presents(old(Views()))
    {
      if |number| != 0 {
        number := number[..|number| - 1];
      }
      PresentDialedNumber();
    }

    /** appendDialedNumber: the buffer grows by the digits. */
    method AppendDialedNumber(digits: string)
      modifies this`number, this`title, this`titleCentered, this`deleteVisible, this`displayName
      ensures number == old(number) + digits && Presents(old(Views()))
    {
      number := Append(number, Some(digits));
      PresentDialedNumber();
    }
  }
}
