/**
 * InCallServiceImpl: the in-call service that telecom binds. It forwards call additions,
 * removals and audio-state changes to its registered callbacks, routes each call-state change
 * to the in-call notification or the in-call activity, and hands out a local binder.
 */
module InCallServices {
  import opened Telecom
  import opened JavaCollections

  /** The action of an intent that binds the service from the dialer's own process. */
  const ACTION_LOCAL_BIND: string := "local_bind"

  /** What a callback is told. */
  datatype Notification =
    | TelecomCallAdded(call: Call)
    | TelecomCallRemoved(call: Call)
    | CallAudioStateChanged(audioState: int)

  /** What the service does to the outside world, in order. */
  datatype Event =
    /** A (deprecated) `Callback`, identified by `listener`, is told `n`. */
    | ToCallback(listener: nat, n: Notification)
    /** An `ActiveCallListChangedCallback`, identified by `listener`, is told `n`. */
    | ToActiveCallListCallback(listener: nat, n: Notification)
    | RegisterCallListener(call: Call)
    | UnregisterCallListener(call: Call)
    | ShowInCallNotification(call: Call)
    | StartInCallActivity
    | CancelInCallNotification(call: Call)

  /** The event of telling one callback about `n`. */
  function Delivery(listener: nat, n: Notification, activeList: bool): Event {
    if activeList then ToActiveCallListCallback(listener, n) else ToCallback(listener, n)
  }

  /** The events of telling each callback of `listeners`, in order, about `n`. */
  function Deliveries(listeners: seq<nat>, n: Notification, activeList: bool): (r: seq<Event>)
    ensures |r| == |listeners|
    ensures forall i :: 0 <= i < |listeners| ==>
              r[i] == if activeList then ToActiveCallListCallback(listeners[i], n) else ToCallback(listeners[i], n)
  {
    seq(|listeners|, i requires 0 <= i < |listeners| => Delivery(listeners[i], n, activeList))
  }

  /** A listener that is not registered is told nothing. */
  lemma DeliveriesSkipUnregistered(listeners: seq<nat>, n: Notification, activeList: bool, x: nat)
    requires x !in listeners
    ensures forall e :: e in Deliveries(listeners, n, activeList) ==> e.listener != x
  {
    forall e | e in Deliveries(listeners, n, activeList) ensures e.listener != x {
      var r := Deliveries(listeners, n, activeList);
      var i :| 0 <= i < |r| && r[i] == e;
      assert e.listener == listeners[i];
    }
  }

  /**
   * The call listener's onStateChanged: a ringing call shows the in-call notification; any
   * other state cancels it, after first launching the in-call activity unless the call is
   * disconnected.
   */
  function StateChangeEvents(call: Call, state: int): (r: seq<Event>)
    ensures ShowInCallNotification(call) in r <==> state == STATE_RINGING
    ensures StartInCallActivity in r <==> state != STATE_RINGING && state != STATE_DISCONNECTED
    ensures CancelInCallNotification(call) in r <==> state != STATE_RINGING
    ensures state != STATE_RINGING ==> r[|r| - 1] == CancelInCallNotification(call)
    ensures |r| <= 2
  {
    if state == STATE_RINGING then [ShowInCallNotification(call)]
    else if state != STATE_DISCONNECTED then [StartInCallActivity, CancelInCallNotification(call)]
    else [CancelInCallNotification(call)]
  }

  /** A callback registered once is no longer registered after it is unregistered. */
  lemma RemoveFirstOnce(s: seq<nat>, x: nat)
    requires multiset(s)[x] <= 1
    ensures x !in RemoveFirst(s, x)
  {
    if x in s {
      assert multiset(RemoveFirst(s, x))[x] == 0;
    }
  }

  /** The kind of binder onBind returns. */
  datatype Binder = LocalBinder | InCallServiceBinder

  /** onBind: a local binder exactly for the local-bind action, else the telecom binder. */
  function OnBind(action: string): (b: Binder)
    ensures b == LocalBinder <==> action == ACTION_LOCAL_BIND
    ensures b == InCallServiceBinder <==> action != ACTION_LOCAL_BIND
  {
    if ACTION_LOCAL_BIND == action then LocalBinder else InCallServiceBinder
  }

  /**
   * onUnbind: false for the local-bind action; any other unbind answers what the framework's
   * InCallService.onUnbind answers (`superResult`).
   */
  function OnUnbind(action: string, superResult: bool): (rebind: bool)
    ensures action == ACTION_LOCAL_BIND ==> !rebind
    ensures action != ACTION_LOCAL_BIND ==> rebind == superResult
  {
    if ACTION_LOCAL_BIND == action then false else superResult
  }

  class InCallServiceImpl {
    /** The registered `Callback`s, in registration order. */
    var callbacks: seq<nat>
    /** The registered `ActiveCallListChangedCallback`s, in registration order. */
    var activeCallListChangedCallbacks: seq<nat>
    var events: seq<Event>

    constructor ()
      ensures callbacks == [] && activeCallListChangedCallbacks == [] && events == []
    {
      callbacks := [];
      activeCallListChangedCallbacks := [];
      events := [];
    }

    /** Appends the deliveries of `n` to every listener of `listeners`, in order. */
    method Dispatch(listeners: seq<nat>, n: Notification, activeList: bool)
      modifies this`events
      ensures events == old(events) + Deliveries(listeners, n, activeList)
    {
      var delivered: seq<Event> := [];
      for i := 0 to |listeners|
        invariant delivered == Deliveries(listeners[..i], n, activeList)
      {
        assert Deliveries(listeners[..i + 1], n, activeList) == delivered + [Delivery(listeners[i], n, activeList)];
        delivered := delivered + [Delivery(listeners[i], n, activeList)];
      }
      assert listeners[..|listeners|] == listeners;
      events := events + delivered;
    }

    /**
     * onCallAdded: registers the call listener, applies the state-change rule to the call's
     * current state, then tells every Callback and every ActiveCallListChangedCallback.
     */
    method OnCallAdded(telecomCall: Call)
      modifies this`events
      ensures events == old(events) + [RegisterCallListener(telecomCall)]
                        + StateChangeEvents(telecomCall, telecomCall.state)
                        + Deliveries(callbacks, TelecomCallAdded(telecomCall), false)
                        + Deliveries(activeCallListChangedCallbacks, TelecomCallAdded(telecomCall), true)
    {
      events := events + [RegisterCallListener(telecomCall)];
      OnStateChanged(telecomCall, telecomCall.state);
      Dispatch(callbacks, TelecomCallAdded(telecomCall), false);
      Dispatch(activeCallListChangedCallbacks, TelecomCallAdded(telecomCall), true);
    }

    /** onCallRemoved: tells every callback, then unregisters the call listener. */
    method OnCallRemoved(telecomCall: Call)
      modifies this`events
      ensures events == old(events)
                        + Deliveries(callbacks, TelecomCallRemoved(telecomCall), false)
                        + Deliveries(activeCallListChangedCallbacks, TelecomCallRemoved(telecomCall), true)
                        + [UnregisterCallListener(telecomCall)]
    {
      Dispatch(callbacks, TelecomCallRemoved(telecomCall), false);
      Dispatch(activeCallListChangedCallbacks, TelecomCallRemoved(telecomCall), true);
      events := events + [UnregisterCallListener(telecomCall)];
    }

    /** The call listener's onStateChanged. */
    method OnStateChanged(call: Call, state: int)
      modifies this`events
      ensures events == old(events) + StateChangeEvents(call, state)
    {
      if state == STATE_RINGING {
        events := events + [ShowInCallNotification(call)];
      } else {
        if state != STATE_DISCONNECTED {
          events := events + [StartInCallActivity];
        }
        events := events + [CancelInCallNotification(call)];
      }
    }

    /** onCallAudioStateChanged: tells every Callback (not the active-call-list callbacks). */
    method OnCallAudioStateChanged(audioState: int)
      modifies this`events
      ensures events == old(events) + Deliveries(callbacks, CallAudioStateChanged(audioState), false)
    {
      Dispatch(callbacks, CallAudioStateChanged(audioState), false);
    }

    method RegisterCallback(callback: nat)
      modifies this`callbacks
      ensures callbacks == old(callbacks) + [callback]
    {
      callbacks := callbacks + [callback];
    }

    method UnregisterCallback(callback: nat)
      modifies this`callbacks
      ensures callbacks == RemoveFirst(old(callbacks), callback)
    {
      callbacks := RemoveFirst(callbacks, callback);
    }

    /** addActiveCallListChangedCallback, with the main-thread post taken as immediate. */
    method AddActiveCallListChangedCallback(callback: nat)
      modifies this`activeCallListChangedCallbacks
      ensures activeCallListChangedCallbacks == old(activeCallListChangedCallbacks) + [callback]
    {
      activeCallListChangedCallbacks := activeCallListChangedCallbacks + [callback];
    }

    /** removeActiveCallListChangedCallback, with the main-thread post taken as immediate. */
    method RemoveActiveCallListChangedCallback(callback: nat)
      modifies this`activeCallListChangedCallbacks
      ensures activeCallListChangedCallbacks == RemoveFirst(old(activeCallListChangedCallbacks), callback)
    {
      activeCallListChangedCallbacks := RemoveFirst(activeCallListChangedCallbacks, callback);
    }

    /** LocalBinder.getService: this service for a caller in the same process, else null. */
    function GetService(callingPid: int, myPid: int): (r: InCallServiceImpl?)
      ensures r == this <==> callingPid == myPid
      ensures r == null <==> callingPid != myPid
    {
      if callingPid == myPid then this else null
    }
  }

  /**
   * A callback that was registered once and then unregistered is told nothing about later
   * call additions or removals.
   */
  lemma UnregisteredCallbackNotNotified(callbacks: seq<nat>, callback: nat, n: Notification)
    requires multiset(callbacks)[callback] <= 1
    ensures forall e :: e in Deliveries(RemoveFirst(callbacks, callback), n, false) ==>
              e.listener != callback
  {
    RemoveFirstOnce(callbacks, callback);
    DeliveriesSkipUnregistered(RemoveFirst(callbacks, callback), n, false, callback);
  }
}
