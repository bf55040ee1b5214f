/**
 * CallHistoryListItemProvider: the items of the call history, one per call log entry, each
 * showing the entry's title and text and calling its number when clicked.
 */
module CallHistoryListItemProviders {
  import opened Wrappers
  import opened JavaStrings
  import opened UiCallLogs

  /** What a click on a call log item does: UiCallManager.placeCall with the entry's number. */
  datatype CallAction = PlaceCall(number: string)

  /** A CallLogListItem: the entry it was made for, with the title and body it was given. */
  datatype CallLogListItem = CallLogListItem(callLog: UiCallLog, title: string, body: string)

  /** A click calls the number of the entry the item was made for. */
  function OnItemClick(item: CallLogListItem): (a: CallAction)
    ensures a.number == item.callLog.number
  {
    PlaceCall(item.callLog.number)
  }

  class CallHistoryListItemProvider {
    var items: seq<CallLogListItem>

    constructor ()
      ensures items == []
    {
      items := [];
    }

    /**
     * setCallHistoryListItems: the old items are dropped and one item per entry is made, in
     * order, titled with the entry's title and with the entry's text as body.
     */
    method SetCallHistoryListItems(callLogs: seq<UiCallLog>)
      modifies this`items
      ensures |items| == |callLogs|
      ensures forall i :: 0 <= i < |callLogs| ==>
                items[i].callLog == callLogs[i] && items[i].title == callLogs[i].title && items[i].body == callLogs[i].text
    {
      items := [];
      for i := 0 to |callLogs|
        invariant |items| == i
        invariant forall k :: 0 <= k < i ==>
                    items[k].callLog == callLogs[k] && items[k].title == callLogs[k].title && items[k].body == callLogs[k].text
      {
        var callLog := callLogs[i];
        items := items + [CallLogListItem(callLog, callLog.title, callLog.text)];
      }
    }

    /** get: the item at the position; outside the list, IndexOutOfBoundsException. */
    function Get(position: int): (r: Result<CallLogListItem>)
      reads this
      ensures r.Ok? <==> 0 <= position < |items|
      ensures r.Ok? ==> r.value == items[position]
      ensures r.Throws? ==> r.exception.IndexOutOfBoundsException?
    {
      if 0 <= position < |items| then Ok(items[position])
      else Throws(IndexOutOfBoundsException(""))
    }

    /** size: the number of items. */
    function Size(): (n: nat)
      reads this
      ensures n == |items|
    {
      |items|
    }
  }
}
