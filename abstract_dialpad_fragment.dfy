/**
 * AbstractDialpadFragment: the base of the newer dialpads. It owns the buffer of dialed
 * digits and the DTMF setting, and leaves presenting the buffer and playing tones to its
 * subclasses; the model records those calls as events.
 */
module AbstractDialpadFragments {
  import opened Wrappers
  import opened DialKeys
  import opened DialBuffers

  const PLAY_DTMF_TONE: int := 1

  /** Calls of the abstract presentDialedNumber, playTone and stopTone. */
  datatype Event =
    | Present(number: string)
    | PlayTone(keycode: int)
    | StopTone

  class AbstractDialpadFragment {
    var number: string
    var dtmfToneEnabled: bool
    var events: seq<Event>

    constructor ()
      ensures number == "" && !dtmfToneEnabled && events == []
    {
      number := "";
      dtmfToneEnabled := false;
      events := [];
    }

    /** onCreate: a saved bundle's number is appended to the buffer. */
    method OnCreate(saved: Option<Bundle>)
      modifies this`number
      ensures number == Restore(old(number), saved)
    {
      if saved.Some? {
        number := Append(number, saved.value.dialNumber);
      }
    }

    /** onResume: DTMF tones follow the setting (default on), then the buffer is presented. */
    method OnResume(dtmfSetting: Option<int>)
      modifies this`dtmfToneEnabled, this`events
      ensures dtmfToneEnabled <==> (dtmfSetting.None? || dtmfSetting.value == PLAY_DTMF_TONE)
      ensures events == old(events) + [Present(number)]
    {
      var setting := if dtmfSetting.Some? then dtmfSetting.value else 1;
      dtmfToneEnabled := setting == PLAY_DTMF_TONE;
      events := events + [Present(number)];
    }

    /** onPause stops the tone. */
    method OnPause()
      modifies this`events
      ensures events == old(events) + [StopTone]
    {
      events := events + [StopTone];
    }

    /** onSaveInstanceState saves the buffer; a fresh fragment's onCreate restores exactly it. */
    method OnSaveInstanceState() returns (saved: Bundle)
      ensures saved == SaveInstanceState(number)
      ensures Restore("", Some(saved)) == number
    {
      saved := Bundle(Some(number));
      RestoreSaved(number);
    }

    /**
     * onKeyDown: always appends the key's character and presents the buffer, then plays the
     * key's tone only with DTMF tones on. A key outside the value map dereferences null.
     */
    method OnKeyDown(keycode: int) returns (r: Result<()>)
      modifies this`number, this`events
      ensures !IsDialKeyCode(keycode) ==>
                r == Throws(NullPointerException) && number == old(number) && events == old(events)
      ensures IsDialKeyCode(keycode) ==> r == Ok(()) && number == old(number) + [DialChar(keycode)]
      ensures IsDialKeyCode(keycode) && dtmfToneEnabled ==>
                events == old(events) + [Present(number), PlayTone(keycode)]
      ensures IsDialKeyCode(keycode) && !dtmfToneEnabled ==> events == old(events) + [Present(number)]
    {
      TablesCoverDialKeys(keycode);
      if keycode !in DialCharMap {
        return Throws(NullPointerException);
      }
      var digit := [DialCharMap[keycode]];
      AppendDialedNumber(digit);
      if !dtmfToneEnabled {
        return Ok(());
      }
      events := events + [PlayTone(keycode)];
      return Ok(());
    }

    /** onKeyUp never touches the buffer, and stops the tone only with DTMF tones on. */
    method OnKeyUp(keycode: int)
      modifies this`events
      ensures dtmfToneEnabled ==> events == old(events) + [StopTone]
      ensures !dtmfToneEnabled ==> events == old(events)
    {
      if !dtmfToneEnabled {
        return;
      }
      events := events + [StopTone];
    }

    /** setDialedNumber: the buffer becomes the number, or empty for a null or empty one. */
    method SetDialedNumber(newNumber: Option<string>)
      modifies this`number, this`events
      ensures number == SetTo(newNumber) && events == old(events) + [Present(number)]
    {
      number := "";
      if !IsEmpty(newNumber) {
        number := Append(number, newNumber);
      }
      events := events + [Present(number)];
    }

    /** clearDialedNumber empties the buffer. */
    method ClearDialedNumber()
      modifies this`number, this`events
      ensures number == "" && events == old(events) + [Present("")]
    {
      number := "";
      events := events + [Present(number)];
    }

    /** removeLastDigit: a no-op on an empty buffer, otherwise one character shorter. */
    method RemoveLastDigit()
      modifies this`number, this`events
      ensures number == DropLast(old(number)) && events == old(events) + [Present(number)]
    {
      if |number| != 0 {
        number := number[..|number| - 1];
      }
      events := events + [Present(number)];
    }

    /** appendDialedNumber: the old buffer followed by the digits. */
    method AppendDialedNumber(digits: string)
      modifies this`number, this`events
      ensures number == old(number) + digits && events == old(events) + [Present(number)]
    {
      number := Append(number, Some(digits));
      events := events + [Present(number)];
    }

    /** getNumber. */
    method GetNumber() returns (r: string)
      ensures r == number
    {
      return number;
    }
  }
}
