/**
 * UiCall: the dialer's mutable copy of the fields of a telecom call that the UI shows, and the
 * process-wide counter that numbers UiCalls.
 */
module UiCalls {
  import opened Wrappers
  import opened Telecom

  const INT_MIN: int := -0x8000_0000
  const INT_MAX: int := 0x7fff_ffff

  /** The value a Java `int` takes after `++`: it wraps from INT_MAX to INT_MIN. */
  function Int32Increment(n: int): (r: int)
    requires INT_MIN <= n <= INT_MAX
    ensures INT_MIN <= r <= INT_MAX
    ensures n < INT_MAX ==> r == n + 1
    ensures n == INT_MAX ==> r == INT_MIN
  {
    if n == INT_MAX then INT_MIN else n + 1
  }

  /** The static `sNextCarPhoneCallId` counter, which starts at 0. */
  class CallIdCounter {
    var next: int

    ghost predicate Valid()
      reads this
    {
      INT_MIN <= next <= INT_MAX
    }

    constructor ()
      ensures Valid() && next == 0
    {
      next := 0;
    }
  }

  class UiCall {
    const id: int
    const telecomCall: Call
    var state: int
    var hasParent: bool
    var number: Option<string>
    var disconnectCause: Option<string>
    var hasChildren: bool
    var gatewayInfoOriginalAddress: Option<Uri>
    var connectTimeMillis: int

    /** The private constructor; the other fields keep Java's defaults (0, false, null). */
    constructor (id: int, call: Call)
      ensures this.id == id && telecomCall == call
      ensures state == 0 && !hasParent && !hasChildren && connectTimeMillis == 0
      ensures number == None && disconnectCause == None && gatewayInfoOriginalAddress == None
    {
      this.id := id;
      telecomCall := call;
      state := 0;
      hasParent := false;
      number := None;
      disconnectCause := None;
      hasChildren := false;
      gatewayInfoOriginalAddress := None;
      connectTimeMillis := 0;
    }
  }

  /**
   * The number a call with these details shows: the gateway's original address when the call
   * goes through a gateway, else the handle, else the empty string.
   */
  function DisplayNumber(details: Details): (n: string)
    ensures details.gatewayInfo.Some? ==>
              n == details.gatewayInfo.value.originalAddress.schemeSpecificPart
    ensures details.gatewayInfo.None? && details.handle.Some? ==>
              n == details.handle.value.schemeSpecificPart
    ensures details.gatewayInfo.None? && details.handle.None? ==> n == ""
  {
    match details.gatewayInfo
    case Some(gateway) => gateway.originalAddress.schemeSpecificPart
    case None => if details.handle.Some? then details.handle.value.schemeSpecificPart else ""
  }

  /**
   * updateFromTelecomCall: copies the state and the parent and children flags; when the call
   * has details it also copies the connect time, the disconnect label, the gateway address and
   * the number, and otherwise leaves those four fields as they were.
   */
  method UpdateFromTelecomCall(uiCall: UiCall, telecomCall: Call) returns (r: UiCall)
    modifies uiCall
    ensures r == uiCall
    ensures uiCall.state == telecomCall.state
    ensures uiCall.hasChildren == (|telecomCall.children| != 0)
    ensures uiCall.hasParent == telecomCall.parent.Some?
    ensures telecomCall.details.None? ==>
              uiCall.connectTimeMillis == old(uiCall.connectTimeMillis)
              && uiCall.disconnectCause == old(uiCall.disconnectCause)
              && uiCall.gatewayInfoOriginalAddress == old(uiCall.gatewayInfoOriginalAddress)
              && uiCall.number == old(uiCall.number)
    ensures telecomCall.details.Some? ==>
              var d := telecomCall.details.value;
              && uiCall.connectTimeMillis == d.connectTimeMillis
              && uiCall.disconnectCause
                 == (if d.disconnectCause.None? then None
                     else Some(d.disconnectCause.value.causeLabel))
              && uiCall.gatewayInfoOriginalAddress
                 == (if d.gatewayInfo.None? then None
                     else Some(d.gatewayInfo.value.originalAddress))
              && uiCall.number == Some(DisplayNumber(d))
  {
    uiCall.state := telecomCall.state;
    uiCall.hasChildren := |telecomCall.children| != 0;
    uiCall.hasParent := telecomCall.parent.Some?;

    if telecomCall.details.None? {
      return uiCall;
    }
    var details := telecomCall.details.value;
    uiCall.connectTimeMillis := details.connectTimeMillis;
    uiCall.disconnectCause :=
      if details.disconnectCause.None? then None else Some(details.disconnectCause.value.causeLabel);
    uiCall.gatewayInfoOriginalAddress :=
      if details.gatewayInfo.None? then None else Some(details.gatewayInfo.value.originalAddress);
    uiCall.number := Some(DisplayNumber(details));
    return uiCall;
  }

  /**
   * createFromTelecomCall: a new UiCall numbered with the counter's current value, which then
   * advances by one (wrapping like a Java int), filled in from the telecom call.
   */
  method CreateFromTelecomCall(counter: CallIdCounter, telecomCall: Call) returns (r: UiCall)
    requires counter.Valid()
    modifies counter
    ensures counter.Valid()
    ensures fresh(r)
    ensures r.id == old(counter.next) && counter.next == Int32Increment(old(counter.next))
    ensures r.telecomCall == telecomCall
    ensures r.state == telecomCall.state && r.hasParent == telecomCall.parent.Some?
    ensures r.hasChildren == (|telecomCall.children| != 0)
    ensures telecomCall.details.None? ==>
              r.number == None && r.connectTimeMillis == 0
              && r.disconnectCause == None && r.gatewayInfoOriginalAddress == None
    ensures telecomCall.details.Some? ==>
              var d := telecomCall.details.value;
              && r.number == Some(DisplayNumber(d))
              && r.connectTimeMillis == d.connectTimeMillis
              && r.disconnectCause
                 == (if d.disconnectCause.None? then None
                     else Some(d.disconnectCause.value.causeLabel))
              && r.gatewayInfoOriginalAddress
                 == (if d.gatewayInfo.None? then None
                     else Some(d.gatewayInfo.value.originalAddress))
  {
    var id := counter.next;
    counter.next := Int32Increment(counter.next);
    var uiCall := new UiCall(id, telecomCall);
    r := UpdateFromTelecomCall(uiCall, telecomCall);
  }

  /**
   * Ids from successive createFromTelecomCall calls: starting from a counter value `start`,
   * the `k`-th call gets `start + k` as long as the counter has not reached INT_MAX.
   */
  function IdsFrom(start: int, count: nat): (ids: seq<int>)
    requires INT_MIN <= start <= INT_MAX
    ensures |ids| == count
    decreases count
  {
    if count == 0 then [] else [start] + IdsFrom(Int32Increment(start), count - 1)
  }

  /** Successive ids strictly increase, so they are distinct, until the counter wraps. */
  lemma {:induction false} IdsIncrease(start: int, count: nat)
    requires INT_MIN <= start && start + count <= INT_MAX + 1
    ensures forall i :: 0 <= i < count ==> IdsFrom(start, count)[i] == start + i
    ensures forall i, j :: 0 <= i < j < count ==> IdsFrom(start, count)[i] < IdsFrom(start, count)[j]
    decreases count
  {
    if count > 0 {
      IdsIncrease(start + 1, count - 1);
      if count > 1 {
        assert Int32Increment(start) == start + 1;
      }
      var ids := IdsFrom(start, count);
      assert ids == [start] + IdsFrom(Int32Increment(start), count - 1);
      forall i | 0 <= i < count ensures ids[i] == start + i {
        if i > 0 { assert ids[i] == IdsFrom(Int32Increment(start), count - 1)[i - 1]; }
      }
    }
  }

  /** Once the counter sits at INT_MAX the next id repeats an older one. */
  lemma IdsWrap()
    ensures IdsFrom(INT_MAX, 2) == [INT_MAX, INT_MIN]
  {
  }
}
