/**
 * InCallViewModel: holds the sorted list of active telecom calls for the in-call screen, the
 * primary call derived from it, and the self-refreshing description of the primary call.
 */
module InCallViewModels {
  import opened Wrappers
  import opened Telecom
  import opened CallOrder
  import UiCallManagers

  /** The primary call mapping: the head of the list, or null for a null or empty list. */
  function PrimaryOfList(input: Option<seq<Call>>): (r: Option<Call>)
    ensures r.None? <==> input.None? || |input.value| == 0
    ensures r.Some? ==> r.value == input.value[0]
  {
    if input.Some? && |input.value| != 0 then Some(input.value[0]) else None
  }

  /**
   * Of a list sorted by the call order, the primary call is one no other call strictly
   * precedes: a parentless call whenever there is one, and among those one of highest rank.
   */
  lemma PrimaryOfSortedList(calls: seq<Call>)
    ensures PrimaryOfList(Some(SortBy(calls, CallKey))).None? <==> |calls| == 0
    ensures PrimaryOfList(Some(SortBy(calls, CallKey))).Some? ==>
              var p := PrimaryOfList(Some(SortBy(calls, CallKey))).value;
              p in calls && forall c :: c in calls ==> Precedes(CallKey(p), CallKey(c))
  {
    var sorted := SortBy(calls, CallKey);
    if |calls| != 0 {
      assert sorted[0] in multiset(calls);
      forall c | c in calls ensures Precedes(CallKey(sorted[0]), CallKey(c)) {
        assert c in multiset(sorted);
        var j :| 0 <= j < |sorted| && sorted[j] == c;
        if j == 0 { CompareAntisymmetric(CallKey(c), CallKey(c)); }
      }
    }
  }

  /**
   * When some call has no parent, the view model's primary call is the call UiCallManager's
   * getPrimaryCall picks from the same calls.
   */
  lemma PrimaryAgreesWithManager(calls: seq<Call>)
    requires CountParentless(calls, CallKey) > 0
    ensures PrimaryOfList(Some(SortBy(calls, CallKey))) == UiCallManagers.PrimaryCall(calls, CallKey)
  {
    CountParentlessSort(calls, CallKey);
    SortedHeadParentless(SortBy(calls, CallKey), CallKey);
  }

  /** What TelecomUtils.getCallInfoText reads of a call detail. */
  datatype CallDetail = CallDetail(number: string)

  class InCallViewModel {
    /** The value of the active-call live data (null before the first update). */
    var activeCalls: Option<seq<Call>>
    /** Whether the view model is registered for active-call-list changes with the manager. */
    var registered: bool
    /** The value of the call-state description live data, and the number of times it was set. */
    var description: Option<string>
    var descriptionSets: nat

    /** The constructor: publishes the sorted call list and registers with the manager. */
    constructor (managerCalls: seq<Call>)
      ensures activeCalls.Some? && SortedBy(activeCalls.value, CallKey)
      ensures multiset(activeCalls.value) == multiset(managerCalls)
      ensures registered && description == None && descriptionSets == 0
    {
      activeCalls := Some(SortBy(managerCalls, CallKey));
      registered := true;
      description := None;
      descriptionSets := 0;
    }

    /** The primary-call live data. */
    function PrimaryCall(): Option<Call>
      reads this
    {
      PrimaryOfList(activeCalls)
    }

    /**
     * updateActiveCallList: publishes a new list holding exactly the manager's calls, sorted
     * by the call order.
     */
    method UpdateActiveCallList(managerCalls: seq<Call>)
      modifies this`activeCalls
      ensures activeCalls == Some(SortBy(managerCalls, CallKey))
      ensures SortedBy(activeCalls.value, CallKey) && multiset(activeCalls.value) == multiset(managerCalls)
    {
      var callList := managerCalls;
      callList := SortBy(callList, CallKey);
      activeCalls := Some(callList);
    }

    /** onTelecomCallAdded: refreshes the list and answers whether it has active observers. */
    method OnTelecomCallAdded(telecomCall: Call, managerCalls: seq<Call>, hasActiveObservers: bool)
      returns (r: bool)
      modifies this`activeCalls
      ensures activeCalls == Some(SortBy(managerCalls, CallKey))
      ensures r == hasActiveObservers
    {
      UpdateActiveCallList(managerCalls);
      return hasActiveObservers;
    }

    /** onTelecomCallRemoved: refreshes the list and answers whether it has active observers. */
    method OnTelecomCallRemoved(telecomCall: Call, managerCalls: seq<Call>, hasActiveObservers: bool)
      returns (r: bool)
      modifies this`activeCalls
      ensures activeCalls == Some(SortBy(managerCalls, CallKey))
      ensures r == hasActiveObservers
    {
      UpdateActiveCallList(managerCalls);
      return hasActiveObservers;
    }

    /** onCleared: unregisters from the manager. */
    method OnCleared()
      modifies this`registered
      ensures !registered
    {
      registered := false;
    }

    /**
     * SelfRefreshDescriptionLiveData.updateDescription: "" when the primary call's detail or
     * state is unknown; otherwise the call-info text, set only when it differs from the current
     * value. `callInfoText` stands for TelecomUtils.getCallInfoText.
     */
    method UpdateDescription(callDetail: Option<CallDetail>, callState: Option<int>,
                             callInfoText: (CallDetail, int, string) -> string)
      modifies this`description, this`descriptionSets
      ensures callDetail.None? || callState.None? ==>
                description == Some("") && descriptionSets == old(descriptionSets) + 1
      ensures callDetail.Some? && callState.Some? ==>
                var text := callInfoText(callDetail.value, callState.value, callDetail.value.number);
                description == Some(text)
                && descriptionSets == old(descriptionSets) + (if old(description) == Some(text) then 0 else 1)
    {
      if callDetail.Some? && callState.Some? {
        var newDescription := callInfoText(callDetail.value, callState.value, callDetail.value.number);
        var oldDescription := description;
        if oldDescription != Some(newDescription) {
          description := Some(newDescription);
          descriptionSets := descriptionSets + 1;
        }
      } else {
        description := Some("");
        descriptionSets := descriptionSets + 1;
      }
    }
  }
}
