/**
 * DialerFragment: the legacy dialer screen. Its buffer of dialed digits is edited by the
 * keypad and the delete button; a number handed over before the view exists is kept as a
 * pending action and applied on the next onResume.
 */
module DialerFragments {
  import opened Wrappers
  import opened DialKeys
  import opened DialBuffers

  /** MotionEvent.ACTION_DOWN and ACTION_UP of the Android SDK. */
  const ACTION_DOWN: int := 0
  const ACTION_UP: int := 1

  /** What the fragment asks of the call manager, the back listener and the tone generator. */
  datatype Effect =
    | SafePlaceCall(number: string, bluetoothCall: bool)
    | CallVoicemail
    | DialerBackClick
    | StartTone(tone: int)
    | StopTone

  /**
   * The long press on "0" as written: deleteCharAt(length - 1) with no emptiness guard,
   * which throws on an empty buffer, then "+" is appended.
   */
  function LongPressZeroAsWritten(buffer: string): (r: Result<string>)
    ensures r.Throws? <==> |buffer| == 0
    ensures r.Ok? ==> r.value == buffer[..|buffer| - 1] + "+"
  {
    if |buffer| - 1 < 0 then Throws(IndexOutOfBoundsException(""))
    else Ok(buffer[..|buffer| - 1] + "+")
  }

  /**
   * The long press on "0" of an empty buffer throws. A real press does not get there, since
   * its touch-down has already appended "0"; a long click with no touch-down before it (an
   * accessibility action, say) does.
   */
  lemma LongPressZeroOnEmptyBufferThrows()
    ensures LongPressZeroAsWritten("").Throws?
  {
  }

  /**
   * The long press on "0" as the other dialpads do it: the last digit, if any, is replaced
   * by "+", so the result always ends in "+" and keeps every digit but the last.
   */
  function LongPressZero(buffer: string): (r: string)
    ensures |r| > 0 && r[|r| - 1] == '+'
    ensures r[..|r| - 1] == DropLast(buffer)
    ensures |buffer| > 0 ==> |r| == |buffer| && LongPressZeroAsWritten(buffer) == Ok(r)
    ensures |buffer| == 0 ==> r == "+"
  {
    Append(DropLast(buffer), Some("+"))
  }

  class DialerFragment {
    var number: string
    var showInput: bool
    /** mPendingRunnable: the number a later onResume will set, if any. */
    var pendingNumber: Option<string>
    /** mContext != null && mNumberView != null. */
    var hasView: bool
    var hasToneGenerator: bool
    const hasBackListener: bool
    /** TelecomUtils.getFormattedNumber. */
    const format: string -> string
    /** The number view's text. */
    var numberText: string
    var effects: seq<Effect>

    constructor (hasBackListener: bool, format: string -> string)
      ensures this.hasBackListener == hasBackListener && this.format == format
      ensures number == "" && showInput && pendingNumber == None && !hasView && !hasToneGenerator
      ensures effects == []
    {
      this.hasBackListener := hasBackListener;
      this.format := format;
      number := "";
      showInput := true;
      pendingNumber := None;
      hasView := false;
      hasToneGenerator := false;
      numberText := "";
      effects := [];
    }

    /** newInstance: the arguments carry the number only when it is not empty. */
    static function Arguments(dialNumber: Option<string>): (args: Option<Option<string>>)
      ensures args.None? <==> IsEmpty(dialNumber)
      ensures args.Some? ==> args.value == dialNumber
    {
      if IsEmpty(dialNumber) then None else Some(dialNumber)
    }

    /**
     * onCreate: the saved input-active flag, when present, sets showInput; arguments hand
     * their number to setDialNumber.
     */
    method OnCreate(savedInputActive: Option<Option<bool>>, args: Option<Option<string>>)
      modifies this`showInput, this`number, this`numberText, this`pendingNumber
      ensures savedInputActive.Some? && savedInputActive.value.Some? ==> showInput == savedInputActive.value.value
      ensures !(savedInputActive.Some? && savedInputActive.value.Some?) ==> showInput == old(showInput)
      ensures args.None? ==> number == old(number) && pendingNumber == old(pendingNumber)
      ensures args.Some? ==> SetsDialNumber(args.value, old(number), old(pendingNumber))
      ensures args.None? || IsEmpty(args.value) || !hasView ==> numberText == old(numberText)
    {
      if savedInputActive.Some? && savedInputActive.value.Some? {
        showInput := savedInputActive.value.value;
      }
      if args.Some? {
        SetDialNumber(args.value);
      }
    }

    /** onCreateView: the view exists from now on. */
    method OnCreateView()
      modifies this`hasView
      ensures hasView
    {
      hasView := true;
    }

    /** onDestroyView: the view is gone. */
    method OnDestroyView()
      modifies this`hasView
      ensures !hasView
    {
      hasView := false;
    }

    /** The exit button tells the back listener, if any. */
    method OnExitClick()
      modifies this`effects
      ensures hasBackListener ==> effects == old(effects) + [DialerBackClick]
      ensures !hasBackListener ==> effects == old(effects)
    {
      if hasBackListener {
        effects := effects + [DialerBackClick];
      }
    }

    /** The call button places a (non-Bluetooth) call only for a non-empty buffer. */
    method OnCallClick()
      modifies this`effects
      ensures |number| > 0 ==> effects == old(effects) + [SafePlaceCall(number, false)]
      ensures |number| == 0 ==> effects == old(effects)
    {
      if !IsEmpty(Some(number)) {
        effects := effects + [SafePlaceCall(number, false)];
      }
    }

    /** The delete click removes the last character only from a non-empty buffer. */
    method OnDeleteClick()
      modifies this`number, this`numberText
      ensures number == DropLast(old(number))
      ensures |old(number)| > 0 ==> numberText == format(number)
      ensures |old(number)| == 0 ==> numberText == old(numberText)
    {
      if |number| != 0 {
        number := number[..|number| - 1];
        numberText := format(number);
      }
    }

    /** The delete long click empties the buffer and consumes the click. */
    method OnDeleteLongClick() returns (consumed: bool)
      modifies this`number, this`numberText
      ensures number == "" && numberText == format("") && consumed
    {
      number := "";
      numberText := format(number);
      return true;
    }

    /**
     * DialpadClickListener.onLongClick for one of the twelve keys: "0" puts "+" in place of
     * the last digit and stops the tone, "1" calls voicemail; both consume the click, the
     * other keys do not and change nothing. As written, "0" on an empty buffer throws
     * before anything changes.
     */
    method OnLongClick(keycode: int) returns (r: Result<bool>)
      requires IsDialKeyCode(keycode)
      modifies this`number, this`numberText, this`effects
      ensures keycode == KEYCODE_0 && |old(number)| == 0 ==>
                r.Throws? && number == old(number) && numberText == old(numberText) && effects == old(effects)
      ensures keycode == KEYCODE_0 && |old(number)| > 0 ==>
                r == Ok(true) && Ok(number) == LongPressZeroAsWritten(old(number))
                && number == LongPressZero(old(number)) && numberText == format(number)
                && effects == old(effects) + (if hasToneGenerator then [StopTone] else [])
      ensures keycode == KEYCODE_1 ==>
                r == Ok(true) && number == old(number) && numberText == old(numberText)
                && effects == old(effects) + [CallVoicemail]
      ensures keycode != KEYCODE_0 && keycode != KEYCODE_1 ==>
                r == Ok(false) && number == old(number) && numberText == old(numberText) && effects == old(effects)
    {
      TablesCoverDialKeys(keycode);
      var value := DialStringMap[keycode];
      if value == "0" {
        var pressed := LongPressZeroAsWritten(number);
        if pressed.Throws? {
          return Throws(pressed.exception);
        }
        number := pressed.value;
        numberText := format(number);
        StopToneIfAny();
        return Ok(true);
      } else if value == "1" {
        effects := effects + [CallVoicemail];
        return Ok(true);
      }
      return Ok(false);
    }

    /**
     * DialpadClickListener.onTouch: a touch-down appends the key's string and plays its
     * tone, a touch-up stops the tone; the touch is never consumed.
     */
    method OnTouch(keycode: int, action: int) returns (consumed: bool)
      requires IsDialKeyCode(keycode)
      modifies this`number, this`numberText, this`effects
      ensures !consumed
      ensures action == ACTION_DOWN ==>
                number == old(number) + [DialChar(keycode)] && numberText == format(number)
                && effects == old(effects) + (if hasToneGenerator then [StartTone(Tone(keycode))] else [])
      ensures action == ACTION_UP ==>
                number == old(number) && numberText == old(numberText) && effects == old(effects) + (if hasToneGenerator then [StopTone] else [])
      ensures action != ACTION_DOWN && action != ACTION_UP ==>
                number == old(number) && numberText == old(numberText) && effects == old(effects)
    {
      TablesCoverDialKeys(keycode);
      if action == ACTION_DOWN {
        AppendDigitAndUpdate(DialStringMap[keycode]);
        if hasToneGenerator {
          effects := effects + [StartTone(ToneMap[keycode])];
        }
      } else if action == ACTION_UP {
        StopToneIfAny();
      }
      return false;
    }

    /** onResume: creates the tone generator, then runs a pending action once and drops it. */
    method OnResume()
      modifies this`hasToneGenerator, this`pendingNumber, this`number, this`numberText
      ensures hasToneGenerator && pendingNumber == None
      ensures old(pendingNumber).Some? ==> number == old(pendingNumber).value && numberText == format(number)
      ensures old(pendingNumber).None? ==> number == old(number) && numberText == old(numberText)
    {
      hasToneGenerator := true;
      if pendingNumber.Some? {
        SetDialNumberInternal(pendingNumber.value);
        pendingNumber := None;
      }
    }

    /** onPause: stops the tone and releases the generator. */
    method OnPause()
      modifies this`effects, this`hasToneGenerator
      ensures effects == old(effects) + (if old(hasToneGenerator) then [StopTone] else [])
      ensures !hasToneGenerator
    {
      StopToneIfAny();
      hasToneGenerator := false;
    }

    /**
     * What setDialNumber does to the buffer and the pending action: nothing for a null or
     * empty number; with a view the buffer becomes the number; without one the number
     * becomes the pending action, replacing any earlier one.
     */
    predicate SetsDialNumber(dialNumber: Option<string>, oldNumber: string, oldPending: Option<string>)
      reads this
    {
      if IsEmpty(dialNumber) then number == oldNumber && pendingNumber == oldPending
      else if hasView then number == dialNumber.value && numberText == format(number) && pendingNumber == oldPending
      else number == oldNumber && pendingNumber == Some(dialNumber.value)
    }

    /** setDialNumber. */
    method SetDialNumber(dialNumber: Option<string>)
      modifies this`number, this`numberText, this`pendingNumber
      ensures SetsDialNumber(dialNumber, old(number), old(pendingNumber))
      ensures IsEmpty(dialNumber) || !hasView ==> numberText == old(numberText)
    {
      if IsEmpty(dialNumber) {
        return;
      }
      if hasView {
        SetDialNumberInternal(dialNumber.value);
      } else {
        pendingNumber := Some(dialNumber.value);
      }
    }

    /** setDialNumberInternal: the buffer becomes exactly the number. */
    method SetDialNumberInternal(dialNumber: string)
      modifies this`number, this`numberText
      ensures number == dialNumber && numberText == format(dialNumber)
    {
      number := "";
      AppendDigitAndUpdate(dialNumber);
    }

    /** appendDigitAndUpdate. */
    method AppendDigitAndUpdate(digit: string)
      modifies this`number, this`numberText
      ensures number == old(number) + digit && numberText == format(number)
    {
      number := Append(number, Some(digit));
      numberText := format(number);
    }

    /** stopTone: only when the tone generator exists. */
    method StopToneIfAny()
      modifies this`effects
      ensures effects == old(effects) + (if hasToneGenerator then [StopTone] else [])
    {
      if hasToneGenerator {
        effects := effects + [StopTone];
      }
    }
  }

  /**
   * A fragment made by newInstance with a number and shown for the first time (onCreate,
   * onCreateView, onResume) ends up dialing exactly that number.
   */
  method FirstShow(dialNumber: Option<string>, format: string -> string) returns (f: DialerFragment)
    ensures !IsEmpty(dialNumber) ==> f.number == dialNumber.value && f.pendingNumber == None
    ensures IsEmpty(dialNumber) ==> f.number == ""
  {
    f := new DialerFragment(false, format);
    f.OnCreate(None, DialerFragment.Arguments(dialNumber));
    f.OnCreateView();
    f.OnResume();
  }
}
