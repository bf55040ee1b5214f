/**
 * NotificationReceiver: handles the answer and decline actions of the incoming-call
 * notification by finding the call with the notification's call id.
 */
module NotificationReceivers {
  import opened Wrappers
  import opened Telecom

  const ACTION_ANSWER_CALL: string := "CD.ACTION_ANSWER_CALL"
  const ACTION_DECLINE_CALL: string := "CD.ACTION_DECLINE_CALL"
  const EXTRA_CALL_ID: string := "CD.EXTRA_CALL_ID"

  /** What the receiver does to a call. */
  datatype CallAction =
    | Answer(call: Call, videoState: int)
    | Reject(call: Call, rejectWithMessage: bool, textMessage: string)

  /**
   * The call has details and its telecom call id equals `callId` in the sense of
   * TextUtils.equals (a null id equals nothing here, since a telecom call id is never null).
   */
  predicate HasCallId(call: Call, callId: Option<string>) {
    call.details.Some? && callId == Some(call.details.value.telecomCallId)
  }

  /** `k` is the position of the first call of `calls` with id `callId`. */
  predicate FirstWithId(calls: seq<Call>, callId: Option<string>, k: int) {
    0 <= k < |calls| && HasCallId(calls[k], callId)
    && forall j :: 0 <= j < k ==> !HasCallId(calls[j], callId)
  }

  /** The loop of answerCall and declineCall: the first call with id `callId`, if any. */
  method FindCall(calls: seq<Call>, callId: Option<string>) returns (r: Option<Call>)
    ensures r.None? <==> forall i :: 0 <= i < |calls| ==> !HasCallId(calls[i], callId)
    ensures r.Some? ==> exists k :: FirstWithId(calls, callId, k) && r.value == calls[k]
  {
    var i := 0;
    while i < |calls|
      invariant 0 <= i <= |calls|
      invariant forall j :: 0 <= j < i ==> !HasCallId(calls[j], callId)
    {
      var call := calls[i];
      if call.details.Some? && callId == Some(call.details.value.telecomCallId) {
        assert FirstWithId(calls, callId, i);
        return Some(call);
      }
      i := i + 1;
    }
    return None;
  }

  /**
   * onReceive: the answer action answers (video state 0) and the decline action rejects
   * (without a message) the first call with the intent's call id, and nothing else; no
   * matching call, or any other action, touches no call. A null action makes the string
   * switch throw.
   */
  method OnReceive(action: Option<string>, callId: Option<string>, calls: seq<Call>)
    returns (r: Result<Option<CallAction>>)
    ensures action.None? ==> r == Throws(NullPointerException)
    ensures action.Some? ==> r.Ok?
    ensures action.Some? && action.value != ACTION_ANSWER_CALL && action.value != ACTION_DECLINE_CALL
            ==> r == Ok(None)
    ensures action.Some? && action.value in {ACTION_ANSWER_CALL, ACTION_DECLINE_CALL} ==>
              (r.value.None? <==> forall i :: 0 <= i < |calls| ==> !HasCallId(calls[i], callId))
    ensures action == Some(ACTION_ANSWER_CALL) && r.value.Some? ==>
              exists k :: FirstWithId(calls, callId, k) && r.value.value == Answer(calls[k], 0)
    ensures action == Some(ACTION_DECLINE_CALL) && r.value.Some? ==>
              exists k :: FirstWithId(calls, callId, k) && r.value.value == Reject(calls[k], false, "")
  {
    if action.None? {
      return Throws(NullPointerException);
    }
    if action.value == ACTION_ANSWER_CALL {
      var call := FindCall(calls, callId);
      if call.Some? {
        return Ok(Some(Answer(call.value, 0)));
      }
      return Ok(None);
    } else if action.value == ACTION_DECLINE_CALL {
      var call := FindCall(calls, callId);
      if call.Some? {
        return Ok(Some(Reject(call.value, false, "")));
      }
      return Ok(None);
    }
    return Ok(None);
  }
}
