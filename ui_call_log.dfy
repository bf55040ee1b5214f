/**
 * UiCallLog: one call-history entry as the UI shows it, a title, a body text, a number and
 * the call records it combines, most recent first.
 */
module UiCallLogs {

  /** A PhoneCallLog record; only its end timestamp is read here. */
  datatype Record = Record(callEndTimestamp: int, callType: int)

  class UiCallLog {
    const title: string
    var text: string
    const number: string
    /** The constructor's copy of the records: later changes to the caller's list do not reach it. */
    const callRecords: seq<Record>

    constructor (title: string, text: string, number: string, callRecords: seq<Record>)
      ensures this.title == title && this.text == text && this.number == number
      ensures this.callRecords == callRecords
    {
      this.title := title;
      this.text := text;
      this.number := number;
      this.callRecords := callRecords;
    }

    /** setText changes the body text and nothing else. */
    method SetText(text: string)
      modifies this`text
      ensures this.text == text
    {
      this.text := text;
    }

    /**
     * getCallRecords(n): the first n records in order, none for n <= 0 and all of them for
     * n at least their number.
     */
    function CallRecordsUpTo(n: int): (r: seq<Record>)
      ensures n <= 0 ==> r == []
      ensures 0 <= n <= |callRecords| ==> |r| == n
      ensures n >= |callRecords| ==> r == callRecords
      ensures |r| <= |callRecords| && r == callRecords[..|r|]
    {
      var toIndex := if n < 0 then 0 else n;
      var toIndex := if toIndex < |callRecords| then toIndex else |callRecords|;
      if toIndex == 0 then [] else callRecords[..toIndex]
    }

    /** getCallRecords(): all records. */
    function CallRecords(): (r: seq<Record>)
      ensures r == callRecords
    {
      CallRecordsUpTo(|callRecords|)
    }

    /** getMostRecentCallEndTimestamp: 0 without records, else the first record's end time. */
    function MostRecentCallEndTimestamp(): (t: int)
      ensures |callRecords| == 0 ==> t == 0
      ensures |callRecords| > 0 ==> t == callRecords[0].callEndTimestamp
    {
      if |callRecords| == 0 then 0 else callRecords[0].callEndTimestamp
    }

    /** Asking for fewer records gives a prefix of what asking for more gives. */
    lemma CallRecordsPrefix(n: int, m: int)
      requires n <= m
      ensures CallRecordsUpTo(n) == CallRecordsUpTo(m)[..|CallRecordsUpTo(n)|]
    {
      var small := CallRecordsUpTo(n);
      var large := CallRecordsUpTo(m);
      assert |small| <= |large|;
      assert small == callRecords[..|small|];
      assert large[..|small|] == callRecords[..|large|][..|small|];
    }
  }
}
