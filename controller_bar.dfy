/**
 * OnGoingCallControllerBarFragment: the control bar of an ongoing call (mute, dialpad toggle,
 * end call, audio route, hold) and its audio-route list.
 */
module ControllerBars {
  import opened Wrappers
  import opened Telecom
  import UiCallManagers
  import opened JavaCollections

  /** What the bar asks of the call, the manager, its callback and its dialog. */
  datatype Effect =
    | SetMuted(muted: bool)
    | OpenDialpad
    | CloseDialpad
    | Hold(call: Call)
    | Unhold(call: Call)
    | Disconnect(call: Call)
    | SetAudioRoute(route: int)
    | ShowRouteDialog
    | DismissRouteDialog

  /** Where the bar's callback comes from: the parent fragment first, then the host. */
  datatype CallbackSource = ParentFragment | Host | NoCallback

  /**
   * onCreate's callback resolution: the parent fragment if it implements the callback,
   * otherwise the host if it does, otherwise none.
   */
  function ResolveCallback(parentIsCallback: bool, hostIsCallback: bool): (r: CallbackSource)
    ensures r == ParentFragment <==> parentIsCallback
    ensures r == Host <==> !parentIsCallback && hostIsCallback
    ensures r == NoCallback <==> !parentIsCallback && !hostIsCallback
  {
    if parentIsCallback then ParentFragment else if hostIsCallback then Host else NoCallback
  }

  /** getAudioRouteIconRes: handset for wired headset and earpiece; None stands for -1. */
  function AudioRouteIconRes(route: int): (res: Option<string>)
    ensures route in {ROUTE_WIRED_HEADSET, ROUTE_EARPIECE} <==> res == Some("ic_smartphone")
    ensures route == ROUTE_BLUETOOTH <==> res == Some("ic_bluetooth")
    ensures route == ROUTE_SPEAKER <==> res == Some("ic_speaker_phone")
    ensures res.None? <==> route !in {ROUTE_WIRED_HEADSET, ROUTE_EARPIECE, ROUTE_BLUETOOTH, ROUTE_SPEAKER}
  {
    if route == ROUTE_WIRED_HEADSET || route == ROUTE_EARPIECE then Some("ic_smartphone")
    else if route == ROUTE_BLUETOOTH then Some("ic_bluetooth")
    else if route == ROUTE_SPEAKER then Some("ic_speaker_phone")
    else None
  }

  /** getAudioRouteLabelRes: the same grouping as the icons; None stands for -1. */
  function AudioRouteLabelRes(route: int): (res: Option<string>)
    ensures route in {ROUTE_WIRED_HEADSET, ROUTE_EARPIECE} <==> res == Some("audio_route_handset")
    ensures route == ROUTE_BLUETOOTH <==> res == Some("audio_route_vehicle")
    ensures route == ROUTE_SPEAKER <==> res == Some("audio_route_phone_speaker")
    ensures res.None? <==> route !in {ROUTE_WIRED_HEADSET, ROUTE_EARPIECE, ROUTE_BLUETOOTH, ROUTE_SPEAKER}
  {
    if route == ROUTE_WIRED_HEADSET || route == ROUTE_EARPIECE then Some("audio_route_handset")
    else if route == ROUTE_BLUETOOTH then Some("audio_route_vehicle")
    else if route == ROUTE_SPEAKER then Some("audio_route_phone_speaker")
    else None
  }

  /** The icon and the label of a route always name the same kind of output. */
  lemma IconAndLabelAgree(route: int)
    ensures AudioRouteIconRes(route).None? <==> AudioRouteLabelRes(route).None?
    ensures AudioRouteIconRes(route) == AudioRouteIconRes(ROUTE_EARPIECE) <==>
            AudioRouteLabelRes(route) == AudioRouteLabelRes(ROUTE_EARPIECE)
  {
  }

  /**
   * The AudioRouteListAdapter constructor as written: `remove(ROUTE_WIRED_HEADSET)` on a
   * `List<Integer>` with an `int` argument resolves to `remove(int index)`, so it removes the
   * element at index 4, or throws when the list has no such index.
   */
  function AudioRouteListAsWritten(routes: seq<int>): (r: Result<seq<int>>)
    ensures !(ROUTE_EARPIECE in routes && ROUTE_WIRED_HEADSET in routes) ==> r == Ok(routes)
    ensures ROUTE_EARPIECE in routes && ROUTE_WIRED_HEADSET in routes && |routes| <= ROUTE_WIRED_HEADSET ==>
              r.Throws? && r.exception.IndexOutOfBoundsException?
    ensures ROUTE_EARPIECE in routes && ROUTE_WIRED_HEADSET in routes && |routes| > ROUTE_WIRED_HEADSET ==>
              r == Ok(routes[..ROUTE_WIRED_HEADSET] + routes[ROUTE_WIRED_HEADSET + 1..])
  {
    if ROUTE_EARPIECE in routes && ROUTE_WIRED_HEADSET in routes then
      if ROUTE_WIRED_HEADSET < |routes| then
        Ok(routes[..ROUTE_WIRED_HEADSET] + routes[ROUTE_WIRED_HEADSET + 1..])
      else
        Throws(IndexOutOfBoundsException(""))
    else Ok(routes)
  }

  /** The list that holds both the earpiece and the wired headset makes the adapter throw. */
  lemma AudioRouteListAsWrittenThrows()
    ensures AudioRouteListAsWritten([ROUTE_EARPIECE, ROUTE_WIRED_HEADSET]).Throws?
  {
  }

  /**
   * The AudioRouteListAdapter constructor as intended: keeps the earpiece or the wired headset
   * but not both, by removing the wired headset when both are present.
   */
  function AudioRouteList(routes: seq<int>): (r: seq<int>)
    ensures !(ROUTE_EARPIECE in routes && ROUTE_WIRED_HEADSET in routes) ==> r == routes
    ensures ROUTE_EARPIECE in routes && ROUTE_WIRED_HEADSET in routes ==>
              exists k :: 0 <= k < |routes| && routes[k] == ROUTE_WIRED_HEADSET && ROUTE_WIRED_HEADSET !in routes[..k]
                          && r == routes[..k] + routes[k + 1..]
    ensures !(ROUTE_EARPIECE in r && ROUTE_WIRED_HEADSET in r) || multiset(routes)[ROUTE_WIRED_HEADSET] > 1
    ensures ROUTE_EARPIECE in routes ==> ROUTE_EARPIECE in r
    ensures multiset(r) <= multiset(routes)
  {
    if ROUTE_EARPIECE in routes && ROUTE_WIRED_HEADSET in routes then
      var r := RemoveFirst(routes, ROUTE_WIRED_HEADSET);
      assert ROUTE_EARPIECE in multiset(r);
      assert multiset(r)[ROUTE_WIRED_HEADSET] == multiset(routes)[ROUTE_WIRED_HEADSET] - 1;
      r
    else routes
  }

  /** The adapter as written does what was intended when index 4 holds the list's first wired headset. */
  lemma AudioRouteListAgreesAtIndexFour(routes: seq<int>)
    requires ROUTE_EARPIECE in routes
    requires |routes| > ROUTE_WIRED_HEADSET && routes[ROUTE_WIRED_HEADSET] == ROUTE_WIRED_HEADSET
    requires ROUTE_WIRED_HEADSET !in routes[..ROUTE_WIRED_HEADSET]
    ensures AudioRouteListAsWritten(routes) == Ok(AudioRouteList(routes))
  {
    var k := FirstIndex(routes, ROUTE_WIRED_HEADSET);
  }

  /** The adapter as written never does what was intended when index 4 is missing or holds another route. */
  lemma AudioRouteListDiffersElsewhere(routes: seq<int>)
    requires ROUTE_EARPIECE in routes && ROUTE_WIRED_HEADSET in routes
    requires |routes| <= ROUTE_WIRED_HEADSET || routes[ROUTE_WIRED_HEADSET] != ROUTE_WIRED_HEADSET
    ensures AudioRouteListAsWritten(routes) != Ok(AudioRouteList(routes))
  {
    if |routes| > ROUTE_WIRED_HEADSET {
      var w := routes[..ROUTE_WIRED_HEADSET] + routes[ROUTE_WIRED_HEADSET + 1..];
      assert routes == routes[..ROUTE_WIRED_HEADSET] + [routes[ROUTE_WIRED_HEADSET]] + routes[ROUTE_WIRED_HEADSET + 1..];
      assert multiset(w)[ROUTE_WIRED_HEADSET] == multiset(routes)[ROUTE_WIRED_HEADSET];
      assert multiset(AudioRouteList(routes))[ROUTE_WIRED_HEADSET] == multiset(routes)[ROUTE_WIRED_HEADSET] - 1;
    }
  }

  /**
   * The lists UiCallManager.getSupportedAudioRoute gives never hold both the earpiece and the
   * wired headset, so on them the adapter as written keeps the list, as the intended one does.
   */
  lemma SupportedRoutesKeepTheAdapter(isBluetoothCall: bool, mask: bv32)
    ensures var routes := UiCallManagers.SupportedAudioRoute(isBluetoothCall, mask);
            AudioRouteListAsWritten(routes) == Ok(routes) && AudioRouteList(routes) == routes
  {
    var routes := UiCallManagers.SupportedAudioRoute(isBluetoothCall, mask);
    if isBluetoothCall {
      assert ROUTE_WIRED_HEADSET !in routes;
    } else if routes != [] {
      assert routes == [routes[0]];
      assert !(ROUTE_EARPIECE in routes && ROUTE_WIRED_HEADSET in routes);
    }
  }

  class OnGoingCallControllerBar {
    var callback: CallbackSource
    var callState: int
    var muteActivated: bool
    var dialpadActivated: bool
    var pauseEnabled: bool
    var pauseActivated: bool
    /** Whether the audio-route button opens the route dialog. */
    var routeButtonOpensDialog: bool
    var routeDialogShowing: bool
    var routeIcon: Option<string>
    var effects: seq<Effect>

    constructor (callback: CallbackSource)
      ensures this.callback == callback && callState == 0 && effects == []
      ensures !muteActivated && !dialpadActivated && !pauseEnabled && !pauseActivated
      ensures !routeButtonOpensDialog && !routeDialogShowing && routeIcon == None
    {
      this.callback := callback;
      callState := 0;
      muteActivated := false;
      dialpadActivated := false;
      pauseEnabled := false;
      pauseActivated := false;
      routeButtonOpensDialog := false;
      routeDialogShowing := false;
      routeIcon := None;
      effects := [];
    }

    /**
     * setButtonEnabled on the pause button: enabled and activated while holding, enabled and
     * not activated while active, disabled otherwise (its activated flag then stays as it was).
     */
    method SetPauseButtonEnabled()
      modifies this`pauseEnabled, this`pauseActivated
      ensures pauseEnabled <==> callState == STATE_HOLDING || callState == STATE_ACTIVE
      ensures callState == STATE_HOLDING ==> pauseActivated
      ensures callState == STATE_ACTIVE ==> !pauseActivated
      ensures callState != STATE_HOLDING && callState != STATE_ACTIVE ==> pauseActivated == old(pauseActivated)
    {
      if callState == STATE_HOLDING {
        pauseEnabled := true;
        pauseActivated := true;
      } else if callState == STATE_ACTIVE {
        pauseEnabled := true;
        pauseActivated := false;
      } else {
        pauseEnabled := false;
      }
    }

    /**
     * onCreateView: takes the call state from the arguments, closes the dialpad, lets the route
     * button open the dialog exactly when more than one route is supported, and applies the
     * pause-button rule. With no callback, the unguarded onCloseDialpad call throws.
     */
    method OnCreateView(argumentCallState: Option<int>, supportedRoutes: seq<int>) returns (r: Result<()>)
      modifies this`callState, this`dialpadActivated, this`effects
      modifies this`routeButtonOpensDialog, this`pauseEnabled, this`pauseActivated
      ensures argumentCallState.Some? ==> callState == argumentCallState.value
      ensures argumentCallState.None? ==> callState == old(callState)
      ensures !dialpadActivated
      ensures callback == NoCallback ==>
                r == Throws(NullPointerException) && effects == old(effects)
                && routeButtonOpensDialog == old(routeButtonOpensDialog)
                && pauseEnabled == old(pauseEnabled) && pauseActivated == old(pauseActivated)
      ensures callback != NoCallback ==>
                r == Ok(()) && effects == old(effects) + [CloseDialpad]
                && (routeButtonOpensDialog <==> |supportedRoutes| > 1)
                && (pauseEnabled <==> callState == STATE_HOLDING || callState == STATE_ACTIVE)
                && (callState == STATE_HOLDING ==> pauseActivated)
                && (callState == STATE_ACTIVE ==> !pauseActivated)
                && (callState != STATE_HOLDING && callState != STATE_ACTIVE ==>
                      pauseActivated == old(pauseActivated))
    {
      if argumentCallState.Some? {
        callState := argumentCallState.value;
      }
      dialpadActivated := false;
      if callback == NoCallback {
        return Throws(NullPointerException);
      }
      effects := effects + [CloseDialpad];
      routeButtonOpensDialog := |supportedRoutes| > 1;
      SetPauseButtonEnabled();
      return Ok(());
    }

    /** The mute button: flips its activated flag and mutes exactly when it becomes activated. */
    method OnMuteClick()
      modifies this`muteActivated, this`effects
      ensures callback == NoCallback ==> muteActivated == old(muteActivated) && effects == old(effects)
      ensures callback != NoCallback ==>
                muteActivated == !old(muteActivated) && effects == old(effects) + [SetMuted(muteActivated)]
    {
      if callback == NoCallback {
        return;
      }
      if muteActivated {
        muteActivated := false;
        effects := effects + [SetMuted(false)];
      } else {
        muteActivated := true;
        effects := effects + [SetMuted(true)];
      }
    }

    /** The dialpad toggle: flips its flag, opening the dialpad when it becomes activated. */
    method OnDialpadClick()
      modifies this`dialpadActivated, this`effects
      ensures callback == NoCallback ==> dialpadActivated == old(dialpadActivated) && effects == old(effects)
      ensures callback != NoCallback ==>
                dialpadActivated == !old(dialpadActivated)
                && effects == old(effects) + [if dialpadActivated then OpenDialpad else CloseDialpad]
    {
      if callback == NoCallback {
        return;
      }
      if dialpadActivated {
        dialpadActivated := false;
        effects := effects + [CloseDialpad];
      } else {
        dialpadActivated := true;
        effects := effects + [OpenDialpad];
      }
    }

    /** The end-call button: disconnects the primary call, if there is one. */
    method OnEndCallClick(primaryCall: Option<Call>)
      modifies this`effects
      ensures callback != NoCallback && primaryCall.Some? ==>
                effects == old(effects) + [Disconnect(primaryCall.value)]
      ensures callback == NoCallback || primaryCall.None? ==> effects == old(effects)
    {
      if callback == NoCallback {
        return;
      }
      if primaryCall.Some? {
        effects := effects + [Disconnect(primaryCall.value)];
      }
    }

    /**
     * The pause button: holds an active primary call, unholds a holding one, and does
     * nothing in any other state.
     */
    method OnPauseClick(primaryCall: Option<Call>)
      modifies this`effects
      ensures callback != NoCallback && primaryCall.Some? && callState == STATE_ACTIVE ==>
                effects == old(effects) + [Hold(primaryCall.value)]
      ensures callback != NoCallback && primaryCall.Some? && callState == STATE_HOLDING ==>
                effects == old(effects) + [Unhold(primaryCall.value)]
      ensures (callback == NoCallback || primaryCall.None?
               || (callState != STATE_ACTIVE && callState != STATE_HOLDING)) ==> effects == old(effects)
    {
      if callback == NoCallback {
        return;
      }
      if callState == STATE_ACTIVE {
        if primaryCall.Some? {
          effects := effects + [Hold(primaryCall.value)];
        }
      } else if callState == STATE_HOLDING {
        if primaryCall.Some? {
          effects := effects + [Unhold(primaryCall.value)];
        }
      }
    }

    /** The route button, when it opens the dialog. */
    method OnRouteButtonClick()
      modifies this`routeDialogShowing, this`effects
      ensures routeButtonOpensDialog ==> routeDialogShowing && effects == old(effects) + [ShowRouteDialog]
      ensures !routeButtonOpensDialog ==>
                routeDialogShowing == old(routeDialogShowing) && effects == old(effects)
    {
      if routeButtonOpensDialog {
        routeDialogShowing := true;
        effects := effects + [ShowRouteDialog];
      }
    }

    /** onPause: dismisses the route dialog if it is showing. */
    method OnPause()
      modifies this`routeDialogShowing, this`effects
      ensures !routeDialogShowing
      ensures effects == old(effects) + (if old(routeDialogShowing) then [DismissRouteDialog] else [])
    {
      if routeDialogShowing {
        routeDialogShowing := false;
        effects := effects + [DismissRouteDialog];
      }
    }

    /** setCallState: stores the state and re-applies the pause-button rule. */
    method SetCallState(state: int)
      modifies this`callState, this`pauseEnabled, this`pauseActivated
      ensures callState == state
      ensures pauseEnabled <==> state == STATE_HOLDING || state == STATE_ACTIVE
      ensures state == STATE_HOLDING ==> pauseActivated
      ensures state == STATE_ACTIVE ==> !pauseActivated
      ensures state != STATE_HOLDING && state != STATE_ACTIVE ==> pauseActivated == old(pauseActivated)
    {
      callState := state;
      SetPauseButtonEnabled();
    }

    /** onVoiceOutputChannelChanged: switches the route, closes the dialog, shows the icon. */
    method OnVoiceOutputChannelChanged(route: int)
      modifies this`routeDialogShowing, this`effects, this`routeIcon
      ensures effects == old(effects) + [SetAudioRoute(route), DismissRouteDialog]
      ensures !routeDialogShowing && routeIcon == AudioRouteIconRes(route)
    {
      effects := effects + [SetAudioRoute(route), DismissRouteDialog];
      routeDialogShowing := false;
      routeIcon := AudioRouteIconRes(route);
    }
  }
}
