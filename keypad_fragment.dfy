/**
 * KeypadFragment: the twelve-key keypad. Each key's touch and long click go to the keypad
 * callback (the parent fragment or the host) and to the tone generator, or, during a call,
 * to the primary call's DTMF tones.
 */
module KeypadFragments {
  import opened Wrappers
  import opened DialKeys
  import opened ControllerBars
  import opened UiCalls

  /** MotionEvent.ACTION_DOWN and ACTION_UP of the Android SDK. */
  const ACTION_DOWN: int := 0
  const ACTION_UP: int := 1

  /** What the keypad asks of its callback, the call manager and the tone generator. */
  datatype Effect =
    | AppendDigit(digit: string)
    | DialVoiceMail
    | PlayDtmfTone(call: UiCall, dtmf: char)
    | StopDtmfTone(call: UiCall)
    | StartTone(tone: int)
    | StopTone

  /** A key's touch and long-click listener, bound to the key's button. */
  datatype Binding = Binding(viewId: string, keycode: int)

  class KeypadFragment {
    var callback: CallbackSource
    var hasToneGenerator: bool
    var effects: seq<Effect>

    constructor ()
      ensures callback == NoCallback && !hasToneGenerator && effects == []
    {
      callback := NoCallback;
      hasToneGenerator := false;
      effects := [];
    }

    /** onCreate creates the tone generator. */
    method OnCreate()
      modifies this`hasToneGenerator
      ensures hasToneGenerator
    {
      hasToneGenerator := true;
    }

    /**
     * onCreateView: the callback is the parent fragment if it implements KeypadCallback,
     * else the host if it does; when neither does, the field keeps its value. The listeners
     * are bound to the keys.
     */
    method OnCreateView(parentIsCallback: bool, hostIsCallback: bool) returns (bindings: seq<Binding>)
      modifies this`callback
      ensures parentIsCallback || hostIsCallback ==> callback == ResolveCallback(parentIsCallback, hostIsCallback)
      ensures !parentIsCallback && !hostIsCallback ==> callback == old(callback)
      ensures |bindings| == 12
      ensures forall i :: 0 <= i < |bindings| ==> bindings[i] == Binding(ViewIdMap[KeyAt(i)], KeyAt(i))
    {
      if parentIsCallback {
        callback := ParentFragment;
      } else if hostIsCallback {
        callback := Host;
      }
      bindings := SetupKeypadClickListeners();
    }

    /**
     * setupKeypadClickListeners: one listener per entry of the button-id table, in the
     * table's order, each on the button of its own key; so every dial key is bound exactly once.
     */
    static method SetupKeypadClickListeners() returns (bindings: seq<Binding>)
      ensures |bindings| == 12
      ensures forall i :: 0 <= i < |bindings| ==> bindings[i] == Binding(ViewIdMap[KeyAt(i)], KeyAt(i))
      ensures forall i, j :: 0 <= i < j < |bindings| ==> bindings[i].keycode < bindings[j].keycode
    {
      bindings := [];
      var i := 0;
      while i < 12
        invariant 0 <= i <= 12 && |bindings| == i
        invariant forall k :: 0 <= k < i ==> bindings[k] == Binding(ViewIdMap[KeyAt(k)], KeyAt(k))
      {
        var key := KeyAt(i);
        bindings := bindings + [Binding(ViewIdMap[key], key)];
        i := i + 1;
      }
    }

    /** Every dial key has a listener in the bindings, and only dial keys do. */
    static lemma BindingsCoverDialKeys(bindings: seq<Binding>, keycode: int)
      requires |bindings| == 12
      requires forall i :: 0 <= i < |bindings| ==> bindings[i] == Binding(ViewIdMap[KeyAt(i)], KeyAt(i))
      ensures (exists i :: 0 <= i < 12 && bindings[i].keycode == keycode) <==> IsDialKeyCode(keycode)
    {
      if IsDialKeyCode(keycode) {
        var i := keycode - KEYCODE_0;
        assert bindings[i].keycode == keycode;
      }
    }

    /**
     * KeypadClickListener.onLongClick: "0" sends "+" to the callback, if any, stops the
     * tone and consumes the click; "1" asks the callback, if any, to dial voicemail and
     * consumes it; any other key does nothing and does not.
     */
    method OnLongClick(keycode: int) returns (consumed: bool)
      requires IsDialKeyCode(keycode)
      modifies this`effects
      ensures keycode == KEYCODE_0 ==>
                consumed
                && effects == old(effects) + (if callback != NoCallback then [AppendDigit("+")] else [])
                                           + (if hasToneGenerator then [StopTone] else [])
      ensures keycode == KEYCODE_1 ==>
                consumed && effects == old(effects) + (if callback != NoCallback then [DialVoiceMail] else [])
      ensures keycode != KEYCODE_0 && keycode != KEYCODE_1 ==> !consumed && effects == old(effects)
    {
      TablesCoverDialKeys(keycode);
      var value := DialStringMap[keycode];
      if value == "0" {
        if callback != NoCallback {
          effects := effects + [AppendDigit("+")];
        }
        StopToneIfAny();
        return true;
      } else if value == "1" {
        if callback != NoCallback {
          effects := effects + [DialVoiceMail];
        }
        return true;
      }
      return false;
    }

    /**
     * KeypadClickListener.onTouch: a touch-down gives the key's string to the callback, if
     * any, and plays the key's character as DTMF on the primary call when there is one, else
     * the key's tone locally; a touch-up stops whichever of the two matches. The touch is
     * never consumed. `primaryCall` is UiCallManager.getPrimaryCall.
     */
    method OnTouch(keycode: int, action: int, primaryCall: UiCall?) returns (consumed: bool)
      requires IsDialKeyCode(keycode)
      modifies this`effects
      ensures !consumed
      ensures action == ACTION_DOWN && primaryCall != null ==>
                effects == old(effects) + (if callback != NoCallback then [AppendDigit([DialChar(keycode)])] else [])
                                        + [PlayDtmfTone(primaryCall, DialChar(keycode))]
      ensures action == ACTION_DOWN && primaryCall == null ==>
                effects == old(effects) + (if callback != NoCallback then [AppendDigit([DialChar(keycode)])] else [])
                                        + (if hasToneGenerator then [StartTone(Tone(keycode))] else [])
      ensures action == ACTION_UP && primaryCall != null ==> effects == old(effects) + [StopDtmfTone(primaryCall)]
      ensures action == ACTION_UP && primaryCall == null ==>
                effects == old(effects) + (if hasToneGenerator then [StopTone] else [])
      ensures action != ACTION_DOWN && action != ACTION_UP ==> effects == old(effects)
    {
      TablesCoverDialKeys(keycode);
      var value := DialStringMap[keycode];
      var hasActiveCall := primaryCall != null;
      if action == ACTION_DOWN {
        if callback != NoCallback {
          effects := effects + [AppendDigit(value)];
        }
        if hasActiveCall {
          effects := effects + [PlayDtmfTone(primaryCall, value[0])];
        } else {
          PlayTone(ToneMap[keycode]);
        }
      } else if action == ACTION_UP {
        if hasActiveCall {
          effects := effects + [StopDtmfTone(primaryCall)];
        } else {
          StopToneIfAny();
        }
      }
      return false;
    }

    /** onPause stops the tone. */
    method OnPause()
      modifies this`effects
      ensures effects == old(effects) + (if hasToneGenerator then [StopTone] else [])
    {
      StopToneIfAny();
    }

    /** playTone: only when the tone generator exists. */
    method PlayTone(tone: int)
      modifies this`effects
      ensures effects == old(effects) + (if hasToneGenerator then [StartTone(tone)] else [])
    {
      if hasToneGenerator {
        effects := effects + [StartTone(tone)];
      }
    }

    /** stopTone: only when the tone generator exists. */
    method StopToneIfAny()
      modifies this`effects
      ensures effects == old(effects) + (if hasToneGenerator then [StopTone] else [])
    {
      if hasToneGenerator {
        effects := effects + [StopTone];
      }
    }
  }
}
