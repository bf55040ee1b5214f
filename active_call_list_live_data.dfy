/**
 * ActiveCallListLiveData: a live list of the in-call service's calls, kept sorted by the call
 * order, that binds the service while it is observed.
 */
module ActiveCallListLiveDatas {
  import opened Wrappers
  import opened Telecom
  import opened CallOrder
  import opened InCallServices
  import opened JavaCollections

  /** What the live data asks of its context. */
  datatype Request = BindService(action: string) | UnbindService

  class ActiveCallListLiveData {
    /** The identity under which this live data registers with the service. */
    const listener: nat
    var inCallService: InCallServiceImpl?
    var calls: seq<Call>
    /** The published value. */
    var value: seq<Call>
    var requests: seq<Request>

    /** The constructor publishes the empty list. */
    constructor (listener: nat)
      ensures this.listener == listener && inCallService == null
      ensures value == [] && calls == [] && requests == []
    {
      this.listener := listener;
      inCallService := null;
      calls := [];
      value := [];
      requests := [];
    }

    /** onActive: binds the in-call service with the local-bind action. */
    method OnActive()
      modifies this`requests
      ensures requests == old(requests) + [BindService(ACTION_LOCAL_BIND)]
    {
      requests := requests + [BindService(ACTION_LOCAL_BIND)];
    }

    /**
     * updateActiveCallList: `calls`, and the published value, become the service's calls
     * sorted by the call order.
     */
    method UpdateActiveCallList(serviceCalls: seq<Call>)
      modifies this`calls, this`value
      ensures SortedBy(calls, CallKey) && multiset(calls) == multiset(serviceCalls)
      ensures calls == SortBy(serviceCalls, CallKey) && value == calls
    {
      var all := serviceCalls;
      calls := SortBy(all, CallKey);
      value := calls;
    }

    /**
     * The service connection's onServiceConnected: keeps the service, registers with it for
     * call-list changes and refreshes the list. `serviceCalls` is what InCallService.getCalls
     * answers.
     */
    method OnServiceConnected(service: InCallServiceImpl, serviceCalls: seq<Call>)
      modifies this, service
      ensures inCallService == service && requests == old(requests)
      ensures service.activeCallListChangedCallbacks
              == old(service.activeCallListChangedCallbacks) + [listener]
      ensures service.callbacks == old(service.callbacks) && service.events == old(service.events)
      ensures calls == SortBy(serviceCalls, CallKey) && value == calls
    {
      inCallService := service;
      service.AddActiveCallListChangedCallback(listener);
      UpdateActiveCallList(serviceCalls);
    }

    /**
     * The service connection's onServiceDisconnected: unregisters from the service; with no
     * service connected before, the dereference throws.
     */
    method OnServiceDisconnected() returns (r: Result<()>)
      modifies inCallService
      ensures old(inCallService) == null ==> r == Throws(NullPointerException)
      ensures old(inCallService) != null ==>
                r == Ok(()) && inCallService.activeCallListChangedCallbacks
                == RemoveFirst(old(inCallService.activeCallListChangedCallbacks), listener)
    {
      if inCallService == null {
        return Throws(NullPointerException);
      }
      inCallService.RemoveActiveCallListChangedCallback(listener);
      return Ok(());
    }

    /** onInactive: unregisters only if a service is held, and always unbinds. */
    method OnInactive()
      modifies this`requests, inCallService
      ensures requests == old(requests) + [UnbindService]
      ensures old(inCallService) != null ==>
                inCallService.activeCallListChangedCallbacks
                == RemoveFirst(old(inCallService.activeCallListChangedCallbacks), listener)
    {
      if inCallService != null {
        inCallService.RemoveActiveCallListChangedCallback(listener);
      }
      requests := requests + [UnbindService];
    }

    /** onTelecomCallAdded: refreshes the list. */
    method OnTelecomCallAdded(telecomCall: Call, serviceCalls: seq<Call>)
      modifies this`calls, this`value
      ensures calls == SortBy(serviceCalls, CallKey) && value == calls
    {
      UpdateActiveCallList(serviceCalls);
    }

    /** onTelecomCallRemoved: refreshes the list. */
    method OnTelecomCallRemoved(telecomCall: Call, serviceCalls: seq<Call>)
      modifies this`calls, this`value
      ensures calls == SortBy(serviceCalls, CallKey) && value == calls
    {
      UpdateActiveCallList(serviceCalls);
    }
  }
}
