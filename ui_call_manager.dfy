/**
 * UiCallManager: the process-wide owner of the UiCall <-> telecom call mapping, the selection
 * of the primary and secondary call, the rate limit on placing calls and the audio-route choice.
 */
module UiCallManagers {
  import opened Wrappers
  import opened Telecom
  import opened CallOrder
  import opened UiCalls
  import opened Resources
  import InCallServices
  import opened DialBuffers

  const MIN_TIME_BETWEEN_CALLS_MS: int := 3000

  const HFP_CLIENT_CONNECTION_SERVICE_CLASS_NAME: string :=
    "com.android.bluetooth.hfpclient.connserv.HfpClientConnectionService"

  const CAN_PLACE_CALL_RESULT_OK: int := 0
  const CAN_PLACE_CALL_RESULT_NETWORK_UNAVAILABLE: int := 1
  const CAN_PLACE_CALL_RESULT_HFP_UNAVAILABLE: int := 2
  const CAN_PLACE_CALL_RESULT_AIRPLANE_MODE: int := 3

  /** What the manager asks of the Android framework. */
  datatype Request =
    | BindInCallService(action: string)
    | UnbindInCallService
    | RegisterInCallServiceCallback
    | UnregisterInCallServiceCallback
    | PlaceCall(number: string)

  /** One entry of `mCallMapping`. */
  datatype Entry = Entry(uiCall: UiCall, telecomCall: Call)

  /** A UiCall together with the two fields the comparator reads. */
  datatype CallView = CallView(uiCall: UiCall, key: SortKey)

  function ViewKey(v: CallView): SortKey {
    v.key
  }

  function Keys(entries: seq<Entry>): (keys: seq<UiCall>)
    ensures |keys| == |entries|
    ensures forall i :: 0 <= i < |entries| ==> keys[i] == entries[i].uiCall
  {
    if entries == [] then [] else [entries[0].uiCall] + Keys(entries[1..])
  }

  /** A snapshot of the UiCalls' parent flags and states, in mapping order. */
  function ViewsOf(entries: seq<Entry>): (views: seq<CallView>)
    reads set e | e in entries :: e.uiCall
    ensures |views| == |entries|
    ensures forall i :: 0 <= i < |entries| ==> views[i].uiCall == entries[i].uiCall
    ensures forall i :: 0 <= i < |entries| ==>
              views[i].key == SortKey(entries[i].uiCall.hasParent, entries[i].uiCall.state)
  {
    if entries == [] then []
    else
      var u := entries[0].uiCall;
      [CallView(u, SortKey(u.hasParent, u.state))] + ViewsOf(entries[1..])
  }

  /** HashMap.remove(key): the entries without the one whose key is `u`. */
  function RemoveKey(entries: seq<Entry>, u: UiCall): (r: seq<Entry>)
    ensures forall i :: 0 <= i < |r| ==> r[i] in entries && r[i].uiCall != u
    ensures forall i :: 0 <= i < |entries| && entries[i].uiCall != u ==> entries[i] in r
    ensures |r| <= |entries|
  {
    if entries == [] then []
    else if entries[0].uiCall == u then RemoveKey(entries[1..], u)
    else [entries[0]] + RemoveKey(entries[1..], u)
  }

  /**
   * getPrimaryCall: after sorting, the first call unless it has a parent. It is absent exactly
   * when every call has a parent (in particular when there is no call); otherwise it is a
   * parentless call of the highest rank among parentless calls.
   */
  function PrimaryCall<T(==)>(calls: seq<T>, key: T -> SortKey): (r: Option<T>)
    ensures r.None? <==> CountParentless(calls, key) == 0
    ensures r.Some? ==> r.value in calls && !key(r.value).hasParent
    ensures r.Some? ==> forall c :: c in calls && !key(c).hasParent ==>
                          Rank(key(c).state) <= Rank(key(r.value).state)
  {
    var sorted := SortBy(calls, key);
    CountParentlessSort(calls, key);
    if |sorted| == 0 then None
    else if key(sorted[0]).hasParent then
      SortedParentlessPrefix(sorted, key, 0);
      assert sorted[..0] == [];
      None
    else
      assert sorted[0] in multiset(calls);
      assert CountParentless(sorted, key) > 0;
      FirstIsHighest(calls, sorted, key);
      Some(sorted[0])
  }

  lemma FirstIsHighest<T>(calls: seq<T>, sorted: seq<T>, key: T -> SortKey)
    requires sorted == SortBy(calls, key) && |sorted| > 0 && !key(sorted[0]).hasParent
    ensures forall c :: c in calls && !key(c).hasParent ==>
              Rank(key(c).state) <= Rank(key(sorted[0]).state)
  {
    forall c | c in calls && !key(c).hasParent
      ensures Rank(key(c).state) <= Rank(key(sorted[0]).state)
    {
      assert c in multiset(sorted);
      var j :| 0 <= j < |sorted| && sorted[j] == c;
      if j > 0 { assert Precedes(key(sorted[0]), key(sorted[j])); }
    }
  }

  /**
   * getSecondaryCall: after sorting, the second call unless it has a parent. It is present
   * exactly when at least two calls have no parent. It is then a call other than the primary
   * one (one of the calls left once the primary is taken out), it is parentless, and it
   * ranks highest among the parentless calls left, so no higher than the primary call.
   */
  function SecondaryCall<T(==)>(calls: seq<T>, key: T -> SortKey): (r: Option<T>)
    ensures r.None? <==> CountParentless(calls, key) < 2
    ensures r.Some? ==> r.value in calls && !key(r.value).hasParent
    ensures r.Some? ==> PrimaryCall(calls, key).Some?
                        && Rank(key(r.value).state) <= Rank(key(PrimaryCall(calls, key).value).state)
    ensures r.Some? ==> r.value in multiset(calls) - multiset{PrimaryCall(calls, key).value}
    ensures r.Some? ==> forall c :: c in multiset(calls) - multiset{PrimaryCall(calls, key).value}
                                    && !key(c).hasParent ==>
                                      Rank(key(c).state) <= Rank(key(r.value).state)
  {
    var sorted := SortBy(calls, key);
    CountParentlessSort(calls, key);
    SecondParentlessCount(sorted, key);
    if |sorted| < 2 || key(sorted[1]).hasParent then
      None
    else
      assert sorted[1] in multiset(calls);
      assert Precedes(key(sorted[0]), key(sorted[1]));
      SecondIsHighestOfRest(calls, sorted, key);
      Some(sorted[1])
  }

  /**
   * Once the head of the sorted list is taken out, what is left is the rest of the sorted
   * list, and its head, if parentless, outranks every parentless call left.
   */
  lemma SecondIsHighestOfRest<T>(calls: seq<T>, sorted: seq<T>, key: T -> SortKey)
    requires sorted == SortBy(calls, key) && |sorted| >= 2 && !key(sorted[1]).hasParent
    ensures multiset(calls) - multiset{sorted[0]} == multiset(sorted[1..])
    ensures sorted[1] in multiset(calls) - multiset{sorted[0]}
    ensures forall c :: c in multiset(calls) - multiset{sorted[0]} && !key(c).hasParent ==>
              Rank(key(c).state) <= Rank(key(sorted[1]).state)
  {
    assert sorted == [sorted[0]] + sorted[1..];
    assert multiset(sorted) == multiset{sorted[0]} + multiset(sorted[1..]);
    var rest := sorted[1..];
    assert rest[0] == sorted[1];
    forall c | c in multiset(calls) - multiset{sorted[0]} && !key(c).hasParent
      ensures Rank(key(c).state) <= Rank(key(sorted[1]).state)
    {
      assert c in multiset(rest);
      var j :| 0 <= j < |rest| && rest[j] == c;
      if j > 0 { assert Precedes(key(sorted[1]), key(sorted[j + 1])); }
    }
  }

  /** In a sorted list the second element is parentless exactly when two elements are. */
  lemma SecondParentlessCount<T>(sorted: seq<T>, key: T -> SortKey)
    requires SortedBy(sorted, key)
    ensures (|sorted| >= 2 && !key(sorted[1]).hasParent) <==> CountParentless(sorted, key) >= 2
  {
    if |sorted| < 2 {
      if |sorted| == 1 { assert sorted[1..] == []; }
    } else if key(sorted[1]).hasParent {
      SortedParentlessPrefix(sorted, key, 1);
      assert sorted[..1] == [sorted[0]];
      assert sorted[..1][1..] == [];
    } else {
      assert Precedes(key(sorted[0]), key(sorted[1]));
      assert sorted == [sorted[0], sorted[1]] + sorted[2..];
      CountParentlessAppend([sorted[0], sorted[1]], sorted[2..], key);
      assert [sorted[0], sorted[1]][1..] == [sorted[1]];
      assert [sorted[1]][1..] == [];
    }
  }

  /** getSupportedAudioRouteMask: the audio state's mask, or 0 when there is no audio state. */
  function SupportedAudioRouteMask(audioStateMask: Option<bv32>): (mask: bv32)
    ensures audioStateMask.None? ==> mask == 0
    ensures audioStateMask.Some? ==> mask == audioStateMask.value
  {
    if audioStateMask.Some? then audioStateMask.value else 0
  }

  /** The routes an on-board call may use, from the most preferred to the least. */
  const RoutePriority: seq<int> := [ROUTE_EARPIECE, ROUTE_BLUETOOTH, ROUTE_WIRED_HEADSET, ROUTE_SPEAKER]

  /** The bit of a route in a 32-bit route mask: each route constant is a single bit. */
  function RouteBit(route: int): (bit: bv32)
    ensures route in RoutePriority ==> bit as int == route
  {
    if route == ROUTE_EARPIECE then 1
    else if route == ROUTE_BLUETOOTH then 2
    else if route == ROUTE_WIRED_HEADSET then 4
    else if route == ROUTE_SPEAKER then 8
    else 0
  }

  /** `mask & route != 0` */
  predicate HasRoute(mask: bv32, route: int) {
    mask & RouteBit(route) != 0
  }

  /**
   * getSupportedAudioRoute: a Bluetooth call may switch between the vehicle (Bluetooth) and
   * the phone (earpiece). Any other call gets at most one route, one of the four it checks.
   */
  function SupportedAudioRoute(isBluetoothCall: bool, mask: bv32): (routes: seq<int>)
    ensures isBluetoothCall ==> routes == [ROUTE_BLUETOOTH, ROUTE_EARPIECE]
    ensures !isBluetoothCall ==> |routes| <= 1
    ensures !isBluetoothCall && routes != [] ==> routes[0] in RoutePriority && HasRoute(mask, routes[0])
  {
    if isBluetoothCall then [ROUTE_BLUETOOTH, ROUTE_EARPIECE]
    else if HasRoute(mask, ROUTE_EARPIECE) then [ROUTE_EARPIECE]
    else if HasRoute(mask, ROUTE_BLUETOOTH) then [ROUTE_BLUETOOTH]
    else if HasRoute(mask, ROUTE_WIRED_HEADSET) then [ROUTE_WIRED_HEADSET]
    else if HasRoute(mask, ROUTE_SPEAKER) then [ROUTE_SPEAKER]
    else []
  }

  /**
   * The route of a call that is not a Bluetooth call is the most preferred route whose bit is
   * set in the mask, and there is none exactly when no route's bit is set.
   */
  lemma SupportedAudioRouteMostPreferred(mask: bv32)
    ensures SupportedAudioRoute(false, mask) == [] <==>
              forall k :: 0 <= k < |RoutePriority| ==> !HasRoute(mask, RoutePriority[k])
    ensures SupportedAudioRoute(false, mask) != [] ==>
              exists k :: 0 <= k < |RoutePriority| && SupportedAudioRoute(false, mask) == [RoutePriority[k]]
                          && forall j :: 0 <= j < k ==> !HasRoute(mask, RoutePriority[j])
  {
    var routes := SupportedAudioRoute(false, mask);
    var p := RoutePriority;
    assert p[0] == ROUTE_EARPIECE && p[1] == ROUTE_BLUETOOTH && p[2] == ROUTE_WIRED_HEADSET && p[3] == ROUTE_SPEAKER;
    if HasRoute(mask, ROUTE_EARPIECE) {
      assert routes == [p[0]];
    } else if HasRoute(mask, ROUTE_BLUETOOTH) {
      assert routes == [p[1]];
    } else if HasRoute(mask, ROUTE_WIRED_HEADSET) {
      assert routes == [p[2]];
    } else if HasRoute(mask, ROUTE_SPEAKER) {
      assert routes == [p[3]];
    } else {
      assert routes == [];
    }
  }

  datatype ComponentName = ComponentName(className: string)

  datatype PhoneAccountHandle = PhoneAccountHandle(componentName: Option<ComponentName>)

  /**
   * isBluetoothCall: the user's outgoing account is served by the HFP client connection
   * service; false when there is no account or no component.
   */
  function IsBluetoothCall(account: Option<PhoneAccountHandle>): (b: bool)
    ensures b <==> account.Some? && account.value.componentName.Some?
                   && account.value.componentName.value.className
                      == HFP_CLIENT_CONNECTION_SERVICE_CLASS_NAME
  {
    match account
    case None => false
    case Some(handle) =>
      match handle.componentName
      case None => false
      case Some(component) => HFP_CLIENT_CONNECTION_SERVICE_CLASS_NAME == component.className
  }

  /** getCanPlaceCallStatus: the check is not implemented yet and always allows the call. */
  function CanPlaceCallStatus(number: string, bluetoothRequired: bool): (status: int)
    ensures status == CAN_PLACE_CALL_RESULT_OK
  {
    CAN_PLACE_CALL_RESULT_OK
  }

  /**
   * getFailToPlaceCallMessage: no message for OK, a dedicated message for a missing HFP
   * connection and for airplane mode, and "network not available" for every other code.
   */
  function FailToPlaceCallMessage(canPlaceCallResult: int): (message: Text)
    ensures canPlaceCallResult == CAN_PLACE_CALL_RESULT_OK <==> message == Plain("")
    ensures canPlaceCallResult == CAN_PLACE_CALL_RESULT_HFP_UNAVAILABLE <==>
              message == StringRes("error_no_hfp")
    ensures canPlaceCallResult == CAN_PLACE_CALL_RESULT_AIRPLANE_MODE <==>
              message == StringRes("error_airplane_mode")
    ensures canPlaceCallResult !in {CAN_PLACE_CALL_RESULT_OK, CAN_PLACE_CALL_RESULT_HFP_UNAVAILABLE,
                                    CAN_PLACE_CALL_RESULT_AIRPLANE_MODE} <==>
              message == StringRes("error_network_not_available")
  {
    if canPlaceCallResult == CAN_PLACE_CALL_RESULT_OK then Plain("")
    else if canPlaceCallResult == CAN_PLACE_CALL_RESULT_HFP_UNAVAILABLE then StringRes("error_no_hfp")
    else if canPlaceCallResult == CAN_PLACE_CALL_RESULT_AIRPLANE_MODE then StringRes("error_airplane_mode")
    else StringRes("error_network_not_available")
  }

  /** The states of a call that is still being set up; safePlaceCall waits for them. */
  const OutgoingStates: seq<int> := [STATE_CONNECTING, STATE_NEW, STATE_DIALING]

  class UiCallManager {
    /** The process-wide UiCall id counter. */
    const ids: CallIdCounter
    var hasContext: bool
    var inCallServiceConnected: bool
    var mapping: seq<Entry>
    var lastPlacedCallTimeMs: int
    /** The requests sent to the framework, oldest first. */
    var requests: seq<Request>

    ghost predicate Valid()
      reads this, ids
    {
      && ids.Valid()
      && (forall i, j :: 0 <= i < j < |mapping| ==> mapping[i].uiCall != mapping[j].uiCall)
      && (forall i, j :: 0 <= i < j < |mapping| ==>
            mapping[i].telecomCall.id != mapping[j].telecomCall.id)
    }

    /** The private constructor: binds the in-call service with the local-bind action. */
    constructor (ids: CallIdCounter)
      requires ids.Valid()
      ensures Valid() && this.ids == ids
      ensures hasContext && !inCallServiceConnected && mapping == [] && lastPlacedCallTimeMs == 0
      ensures requests == [BindInCallService(InCallServices.ACTION_LOCAL_BIND)]
    {
      this.ids := ids;
      hasContext := true;
      inCallServiceConnected := false;
      mapping := [];
      lastPlacedCallTimeMs := 0;
      requests := [BindInCallService(InCallServices.ACTION_LOCAL_BIND)];
    }

    /**
     * The service connection's onServiceConnected: the manager holds what the binder gives
     * back and registers its callback with it. The binder gives back the service only to a
     * caller in the service's own process; otherwise it gives null and the registration
     * throws.
     */
    method OnServiceConnected(callerInSameProcess: bool) returns (r: Result<()>)
      modifies this`inCallServiceConnected, this`requests
      ensures inCallServiceConnected == callerInSameProcess
      ensures callerInSameProcess ==>
                r == Ok(()) && requests == old(requests) + [RegisterInCallServiceCallback]
      ensures !callerInSameProcess ==> r == Throws(NullPointerException) && requests == old(requests)
    {
      inCallServiceConnected := callerInSameProcess;
      if !inCallServiceConnected {
        return Throws(NullPointerException);
      }
      requests := requests + [RegisterInCallServiceCallback];
      return Ok(());
    }

    /**
     * The service connection's onServiceDisconnected: unregisters the callback from the
     * service it still holds; with no service held the dereference throws.
     */
    method OnServiceDisconnected() returns (r: Result<()>)
      modifies this`requests
      ensures !inCallServiceConnected ==> r == Throws(NullPointerException) && requests == old(requests)
      ensures inCallServiceConnected ==>
                r == Ok(()) && requests == old(requests) + [UnregisterInCallServiceCallback]
    {
      if !inCallServiceConnected {
        return Throws(NullPointerException);
      }
      requests := requests + [UnregisterInCallServiceCallback];
      return Ok(());
    }

    /** getCalls: the UiCalls of the mapping. */
    function Calls(): (calls: seq<UiCall>)
      reads this
      ensures |calls| == |mapping|
      ensures forall i :: 0 <= i < |mapping| ==> calls[i] == mapping[i].uiCall
    {
      Keys(mapping)
    }

    /** The index of the entry for telecom call `call`, if there is one. */
    function IndexOfCall(call: Call): (r: Option<nat>)
      reads this
      ensures r.Some? ==> r.value < |mapping| && mapping[r.value].telecomCall.id == call.id
      ensures r.None? <==> forall i :: 0 <= i < |mapping| ==> mapping[i].telecomCall.id != call.id
    {
      IndexOfCallFrom(mapping, call.id)
    }

    static function IndexOfCallFrom(entries: seq<Entry>, id: nat): (r: Option<nat>)
      ensures r.Some? ==> r.value < |entries| && entries[r.value].telecomCall.id == id
      ensures r.None? <==> forall i :: 0 <= i < |entries| ==> entries[i].telecomCall.id != id
    {
      if entries == [] then None
      else if entries[0].telecomCall.id == id then Some(0)
      else
        match IndexOfCallFrom(entries[1..], id)
        case None =>
          assert forall i :: 1 <= i < |entries| ==> entries[i] == entries[1..][i - 1];
          None
        case Some(k) => Some(k + 1)
    }

    /**
     * getOrCreateCallContainer: the UiCall already mapped to `telecomCall`, or a new UiCall
     * added to the mapping as its only new entry.
     */
    method GetOrCreateCallContainer(telecomCall: Call) returns (uiCall: UiCall)
      requires Valid()
      modifies this, ids
      ensures Valid()
      ensures hasContext == old(hasContext) && inCallServiceConnected == old(inCallServiceConnected)
      ensures lastPlacedCallTimeMs == old(lastPlacedCallTimeMs) && requests == old(requests)
      ensures old(IndexOfCall(telecomCall)).Some? ==>
                mapping == old(mapping) && ids.next == old(ids.next)
                && uiCall == mapping[old(IndexOfCall(telecomCall)).value].uiCall
      ensures old(IndexOfCall(telecomCall)).None? ==>
                fresh(uiCall) && uiCall.telecomCall == telecomCall
                && mapping == old(mapping) + [Entry(uiCall, telecomCall)]
                && uiCall.id == old(ids.next) && ids.next == Int32Increment(old(ids.next))
                && uiCall.state == telecomCall.state && uiCall.hasParent == telecomCall.parent.Some?
      ensures exists i :: 0 <= i < |mapping| && mapping[i].uiCall == uiCall
                          && mapping[i].telecomCall.id == telecomCall.id
    {
      var i := 0;
      while i < |mapping|
        invariant 0 <= i <= |mapping|
        invariant forall k :: 0 <= k < i ==> mapping[k].telecomCall.id != telecomCall.id
      {
        if mapping[i].telecomCall.id == telecomCall.id {
          return mapping[i].uiCall;
        }
        i := i + 1;
      }
      uiCall := CreateFromTelecomCall(ids, telecomCall);
      mapping := mapping + [Entry(uiCall, telecomCall)];
      assert mapping[|mapping| - 1] == Entry(uiCall, telecomCall);
    }

    /**
     * doTelecomCallAdded: the UiCall of an already mapped call, unchanged, or a new UiCall
     * with the next id, mapped as the only new entry.
     */
    method DoTelecomCallAdded(telecomCall: Call) returns (uiCall: UiCall)
      requires Valid()
      modifies this, ids
      ensures Valid()
      ensures hasContext == old(hasContext) && inCallServiceConnected == old(inCallServiceConnected)
      ensures lastPlacedCallTimeMs == old(lastPlacedCallTimeMs) && requests == old(requests)
      ensures old(IndexOfCall(telecomCall)).Some? ==>
                mapping == old(mapping) && ids.next == old(ids.next)
                && uiCall == mapping[old(IndexOfCall(telecomCall)).value].uiCall
      ensures old(IndexOfCall(telecomCall)).None? ==>
                fresh(uiCall) && mapping == old(mapping) + [Entry(uiCall, telecomCall)]
                && uiCall.id == old(ids.next) && ids.next == Int32Increment(old(ids.next))
      ensures IndexOfCall(telecomCall).Some?
    {
      uiCall := GetOrCreateCallContainer(telecomCall);
    }

    /**
     * doTelecomCallRemoved: afterwards no entry holds `telecomCall`, and the other entries are
     * those that were there, in the same order. For a call that was not mapped the mapping ends
     * as it began, but the UiCall created for it and dropped again has used up an id.
     */
    method DoTelecomCallRemoved(telecomCall: Call)
      requires Valid()
      modifies this, ids
      ensures Valid()
      ensures mapping == RemoveCall(old(mapping), telecomCall.id)
      ensures IndexOfCall(telecomCall).None?
      ensures old(IndexOfCall(telecomCall)).None? ==> mapping == old(mapping)
      ensures ids.next == if old(IndexOfCall(telecomCall)).None? then Int32Increment(old(ids.next))
                          else old(ids.next)
      ensures hasContext == old(hasContext) && inCallServiceConnected == old(inCallServiceConnected)
      ensures requests == old(requests) && lastPlacedCallTimeMs == old(lastPlacedCallTimeMs)
    {
      ghost var before := mapping;
      var uiCall := GetOrCreateCallContainer(telecomCall);
      RemoveKeyIsRemoveCall(mapping, uiCall, telecomCall.id);
      if old(IndexOfCall(telecomCall)).None? {
        RemoveCallAbsent(before, telecomCall.id);
        RemoveCallAppend(before, [Entry(uiCall, telecomCall)], telecomCall.id);
        assert RemoveCall([Entry(uiCall, telecomCall)], telecomCall.id) == [];
      }
      ghost var withCall := mapping;
      mapping := RemoveKey(mapping, uiCall);
      RemoveKeyKeepsDistinct(withCall, mapping, uiCall, telecomCall.id);
    }

    /**
     * tearDown: unbinds the in-call service if it is connected, clears the mapping, drops the
     * context and clears the global instance, so that init may run again.
     */
    method TearDown(singleton: UiCallManagerSingleton)
      modifies this, singleton
      ensures singleton.instance == null
      ensures mapping == [] && !hasContext && !inCallServiceConnected
      ensures requests == old(requests) + (if old(inCallServiceConnected) then [UnbindInCallService] else [])
      ensures lastPlacedCallTimeMs == old(lastPlacedCallTimeMs)
    {
      if inCallServiceConnected {
        requests := requests + [UnbindInCallService];
        inCallServiceConnected := false;
      }
      mapping := [];
      hasContext := false;
      singleton.instance := null;
    }

    /**
     * getCallWithState: the first call, in mapping order, whose state is one of `states`;
     * null exactly when no call is in any of them.
     */
    method GetCallWithState(states: seq<int>) returns (r: UiCall?)
      ensures r == null <==> forall i :: 0 <= i < |mapping| ==> mapping[i].uiCall.state !in states
      ensures r != null ==> exists i :: 0 <= i < |mapping| && mapping[i].uiCall == r
                              && r.state in states
                              && forall k :: 0 <= k < i ==> mapping[k].uiCall.state !in states
    {
      var calls := Calls();
      var i := 0;
      while i < |calls|
        invariant 0 <= i <= |calls|
        invariant forall k :: 0 <= k < i ==> mapping[k].uiCall.state !in states
      {
        var call := calls[i];
        var j := 0;
        while j < |states|
          invariant 0 <= j <= |states|
          invariant call.state !in states[..j]
        {
          if call.state == states[j] {
            return call;
          }
          assert states[..j + 1] == states[..j] + [states[j]];
          j := j + 1;
        }
        assert states[..j] == states;
        i := i + 1;
      }
      return null;
    }

    /** getPrimaryCall */
    method GetPrimaryCall() returns (r: UiCall?)
      ensures r == null <==> PrimaryCall(ViewsOf(mapping), ViewKey).None?
      ensures r != null ==> r == PrimaryCall(ViewsOf(mapping), ViewKey).value.uiCall
    {
      var calls := ViewsOf(mapping);
      if |calls| == 0 {
        return null;
      }
      var sorted := SortBy(calls, ViewKey);
      var primary := sorted[0];
      if primary.key.hasParent {
        return null;
      }
      return primary.uiCall;
    }

    /** getSecondaryCall */
    method GetSecondaryCall() returns (r: UiCall?)
      ensures r == null <==> SecondaryCall(ViewsOf(mapping), ViewKey).None?
      ensures r != null ==> r == SecondaryCall(ViewsOf(mapping), ViewKey).value.uiCall
    {
      var calls := ViewsOf(mapping);
      if |calls| < 2 {
        return null;
      }
      var sorted := SortBy(calls, ViewKey);
      var secondary := sorted[1];
      if secondary.key.hasParent {
        return null;
      }
      return secondary.uiCall;
    }

    /** No call of the mapping is still being set up. */
    ghost predicate NoOutgoingCall()
      reads this, set e | e in mapping :: e.uiCall
    {
      forall i :: 0 <= i < |mapping| ==> mapping[i].uiCall.state !in OutgoingStates
    }

    /**
     * safePlaceCall: places the call only when no call is connecting, new or dialing and more
     * than MIN_TIME_BETWEEN_CALLS_MS have passed since the last call placed; the time of the
     * last placed call changes exactly when a call is placed.
     */
    method SafePlaceCall(number: string, bluetoothRequired: bool, now: int)
      modifies this
      ensures mapping == old(mapping) && hasContext == old(hasContext)
      ensures inCallServiceConnected == old(inCallServiceConnected)
      ensures var placed := old(NoOutgoingCall())
                            && now - old(lastPlacedCallTimeMs) > MIN_TIME_BETWEEN_CALLS_MS;
              && (placed ==> requests == old(requests) + [PlaceCall(number)] && lastPlacedCallTimeMs == now)
              && (!placed ==> requests == old(requests) && lastPlacedCallTimeMs == old(lastPlacedCallTimeMs))
    {
      if CanPlaceCallStatus(number, bluetoothRequired) == CAN_PLACE_CALL_RESULT_OK {
        var outgoingCall := GetCallWithState(OutgoingStates);
        if outgoingCall == null {
          if now - lastPlacedCallTimeMs > MIN_TIME_BETWEEN_CALLS_MS {
            requests := requests + [PlaceCall(number)];
            lastPlacedCallTimeMs := now;
          }
        }
      }
    }

    /**
     * callVoicemail: does nothing when there is no voicemail number, and otherwise places a
     * call to it through safePlaceCall.
     */
    method CallVoicemail(voicemailNumber: Option<string>, now: int)
      modifies this
      ensures mapping == old(mapping) && hasContext == old(hasContext)
      ensures inCallServiceConnected == old(inCallServiceConnected)
      ensures IsEmpty(voicemailNumber) ==>
                requests == old(requests) && lastPlacedCallTimeMs == old(lastPlacedCallTimeMs)
      ensures !IsEmpty(voicemailNumber) ==>
                var placed := old(NoOutgoingCall())
                              && now - old(lastPlacedCallTimeMs) > MIN_TIME_BETWEEN_CALLS_MS;
                && (placed ==> requests == old(requests) + [PlaceCall(voicemailNumber.value)]
                               && lastPlacedCallTimeMs == now)
                && (!placed ==> requests == old(requests) && lastPlacedCallTimeMs == old(lastPlacedCallTimeMs))
    {
      if IsEmpty(voicemailNumber) {
        return;
      }
      SafePlaceCall(voicemailNumber.value, false, now);
    }
  }

  /** The entries that do not hold the telecom call with identity `id`, in order. */
  function RemoveCall(entries: seq<Entry>, id: nat): (r: seq<Entry>)
    ensures forall i :: 0 <= i < |r| ==> r[i] in entries && r[i].telecomCall.id != id
    ensures forall i :: 0 <= i < |entries| && entries[i].telecomCall.id != id ==> entries[i] in r
  {
    if entries == [] then []
    else if entries[0].telecomCall.id == id then RemoveCall(entries[1..], id)
    else [entries[0]] + RemoveCall(entries[1..], id)
  }

  lemma {:induction false} RemoveCallAbsent(entries: seq<Entry>, id: nat)
    requires forall i :: 0 <= i < |entries| ==> entries[i].telecomCall.id != id
    ensures RemoveCall(entries, id) == entries
  {
    if entries != [] {
      RemoveCallAbsent(entries[1..], id);
    }
  }

  lemma {:induction false} RemoveCallAppend(s: seq<Entry>, t: seq<Entry>, id: nat)
    ensures RemoveCall(s + t, id) == RemoveCall(s, id) + RemoveCall(t, id)
  {
    if s == [] {
      assert s + t == t;
    } else {
      assert (s + t)[0] == s[0] && (s + t)[1..] == s[1..] + t;
      RemoveCallAppend(s[1..], t, id);
    }
  }

  /**
   * In a mapping whose keys and telecom calls are distinct, removing the key of the entry for
   * call `id` is removing that call.
   */
  lemma {:induction false} RemoveKeyIsRemoveCall(entries: seq<Entry>, u: UiCall, id: nat)
    requires forall i, j :: 0 <= i < j < |entries| ==> entries[i].uiCall != entries[j].uiCall
    requires forall i, j :: 0 <= i < j < |entries| ==>
               entries[i].telecomCall.id != entries[j].telecomCall.id
    requires exists i :: 0 <= i < |entries| && entries[i].uiCall == u && entries[i].telecomCall.id == id
    ensures RemoveKey(entries, u) == RemoveCall(entries, id)
  {
    var i :| 0 <= i < |entries| && entries[i].uiCall == u && entries[i].telecomCall.id == id;
    if i == 0 {
      assert forall k :: 0 <= k < |entries[1..]| ==> entries[1..][k].uiCall != u
        by { forall k | 0 <= k < |entries[1..]| ensures entries[1..][k].uiCall != u { assert entries[1..][k] == entries[k + 1]; } }
      assert forall k :: 0 <= k < |entries[1..]| ==> entries[1..][k].telecomCall.id != id
        by { forall k | 0 <= k < |entries[1..]| ensures entries[1..][k].telecomCall.id != id { assert entries[1..][k] == entries[k + 1]; } }
      RemoveKeyAbsent(entries[1..], u);
      RemoveCallAbsent(entries[1..], id);
    } else {
      assert entries[1..][i - 1] == entries[i];
      RemoveKeyIsRemoveCall(entries[1..], u, id);
    }
  }

  lemma {:induction false} RemoveKeyAbsent(entries: seq<Entry>, u: UiCall)
    requires forall i :: 0 <= i < |entries| ==> entries[i].uiCall != u
    ensures RemoveKey(entries, u) == entries
  {
    if entries != [] {
      RemoveKeyAbsent(entries[1..], u);
    }
  }

  /** Removal keeps the keys and the telecom calls distinct. */
  lemma {:induction false} RemoveKeyKeepsDistinct(before: seq<Entry>, after: seq<Entry>, u: UiCall, id: nat)
    requires after == RemoveKey(before, u)
    requires forall i, j :: 0 <= i < j < |before| ==> before[i].uiCall != before[j].uiCall
    requires forall i, j :: 0 <= i < j < |before| ==> before[i].telecomCall.id != before[j].telecomCall.id
    ensures forall i, j :: 0 <= i < j < |after| ==> after[i].uiCall != after[j].uiCall
    ensures forall i, j :: 0 <= i < j < |after| ==> after[i].telecomCall.id != after[j].telecomCall.id
  {
    if before != [] {
      var tail := before[1..];
      assert forall i :: 0 <= i < |tail| ==> tail[i] == before[i + 1];
      RemoveKeyKeepsDistinct(tail, RemoveKey(tail, u), u, id);
      if before[0].uiCall != u {
        var rest := RemoveKey(tail, u);
        assert after == [before[0]] + rest;
        forall j | 0 <= j < |rest|
          ensures before[0].uiCall != rest[j].uiCall && before[0].telecomCall.id != rest[j].telecomCall.id
        {
          var k :| 0 <= k < |tail| && tail[k] == rest[j];
          assert before[k + 1] == rest[j];
        }
      }
    }
  }

  /** The static `sUiCallManager` field. */
  class UiCallManagerSingleton {
    var instance: UiCallManager?

    constructor ()
      ensures instance == null
    {
      instance := null;
    }

    /**
     * init: creates the global manager, or throws IllegalStateException when one exists and
     * leaves it in place.
     */
    method Init(ids: CallIdCounter) returns (r: Result<UiCallManager>)
      requires ids.Valid()
      modifies this
      ensures old(instance) != null ==>
                r == Throws(IllegalStateException("UiCallManager has been initialized."))
                && instance == old(instance)
      ensures old(instance) == null ==>
                r.Ok? && fresh(r.value) && instance == r.value && r.value.Valid()
                && r.value.mapping == [] && r.value.ids == ids
    {
      if instance == null {
        instance := new UiCallManager(ids);
      } else {
        return Throws(IllegalStateException("UiCallManager has been initialized."));
      }
      return Ok(instance);
    }

    /** get: the global manager, or IllegalStateException before init. */
    method Get() returns (r: Result<UiCallManager>)
      ensures instance == null ==>
                r == Throws(IllegalStateException(
                       "Call UiCallManager.init(Context) before calling this function"))
      ensures instance != null ==> r == Ok(instance)
    {
      if instance == null {
        return Throws(IllegalStateException(
                 "Call UiCallManager.init(Context) before calling this function"));
      }
      return Ok(instance);
    }
  }
}
