/**
 * CallLogListingTask: turns the call-log cursor into the legacy dialer's menu items. Each
 * run of consecutive calls to the same number becomes one item whose count is the length of
 * the run; the item id joins the number and the row id with '_'.
 */
module CallLogListings {
  import opened Wrappers
  import opened JavaStrings
  import opened DialBuffers

  /** A call-log cursor row: the cached name, the number, the date and the row id columns. */
  datatype Row = Row(cachedName: Option<string>, number: Option<string>, date: int, rowId: int)

  /**
   * What the task reads from outside: the voicemail number, the voicemail and unknown
   * labels, TelecomUtils.getDisplayName and getTypeFromNumber, DateUtils'
   * relative time of a timestamp, PhoneNumberUtils.compare, whether the cursor has
   * a date column, and UiCallManager.getCallTypes of a run (its first row and its length).
   */
  datatype Env = Env(
    voicemailNumber: Option<string>,
    voicemailLabel: string,
    unknownLabel: string,
    displayName: string -> Option<string>,
    typeFromNumber: string -> Option<string>,
    relativeTimeSpan: int -> string,
    phoneCompare: (Option<string>, Option<string>) -> bool,
    hasDateColumn: bool,
    callTypes: (Row, nat) -> seq<int>)

  /**
   * A menu item: a call-log run, with the call-type icon views it is told to show, or the
   * placeholder shown for an empty log.
   */
  datatype Item =
    | CallItem(id: string, title: string, text: string, count: nat, iconViews: seq<IconView>)
    | EmptyPlaceholder

  /** maybeAppendCount: " (count)" is appended exactly when the count exceeds one. */
  function MaybeAppendCount(text: string, count: int): (r: string)
    ensures |r| >= |text| && r[..|text|] == text
    ensures |r| > |text| <==> count > 1
    ensures count > 1 ==> r[|text|..] == " (" + DecimalString(count) + ")"
  {
    if count > 1 then text + " (" + DecimalString(count) + ")" else text
  }

  /**
   * getContactName: the cached name when there is one, else the voicemail label for the
   * voicemail number, else the display name, or the unknown label when it is empty; the
   * count suffix is applied in every case.
   */
  function ContactName(cachedName: Option<string>, number: string, count: int, isVoicemail: bool, env: Env)
    : (name: string)
    ensures cachedName.Some? ==> name == MaybeAppendCount(cachedName.value, count)
    ensures cachedName.None? && isVoicemail ==> name == MaybeAppendCount(env.voicemailLabel, count)
    ensures cachedName.None? && !isVoicemail && IsEmpty(env.displayName(number)) ==>
              name == MaybeAppendCount(env.unknownLabel, count)
    ensures cachedName.None? && !isVoicemail && !IsEmpty(env.displayName(number)) ==>
              name == MaybeAppendCount(env.displayName(number).value, count)
  {
    if cachedName.Some? then MaybeAppendCount(cachedName.value, count)
    else if isVoicemail then MaybeAppendCount(env.voicemailLabel, count)
    else
      var displayName := env.displayName(number);
      MaybeAppendCount(if IsEmpty(displayName) then env.unknownLabel else displayName.value, count)
  }

  /** getRelativeTime: null for a timestamp that is not positive. */
  function RelativeTime(millis: int, env: Env): (r: Option<string>)
    ensures r.None? <==> millis <= 0
    ensures r.Some? ==> r.value == env.relativeTimeSpan(millis)
  {
    if millis > 0 then Some(env.relativeTimeSpan(millis)) else None
  }

  /**
   * The secondary text: the number's type unless it is the voicemail number, then ", " only
   * when both the type and the date are non-empty, then the date when there is one. A type
   * that is null goes into the StringBuffer as "null".
   */
  function SecondaryText(isVoicemail: bool, numberType: Option<string>, relativeDate: Option<string>)
    : (text: string)
    ensures isVoicemail ==> text == (if relativeDate.Some? then relativeDate.value else "")
    ensures !isVoicemail && !IsEmpty(numberType) && !IsEmpty(relativeDate) ==>
              text == numberType.value + ", " + relativeDate.value
    ensures !isVoicemail && numberType.Some? && (IsEmpty(numberType) || IsEmpty(relativeDate)) ==>
              text == numberType.value + (if relativeDate.Some? then relativeDate.value else "")
    ensures !isVoicemail && numberType.None? ==>
              text == "null" + (if relativeDate.Some? then relativeDate.value else "")
  {
    var withType := if isVoicemail then "" else TypeWithSeparator(numberType, relativeDate);
    if relativeDate.Some? then withType + relativeDate.value else withType
  }

  /** The type ("null" for none), then ", " when both the type and the date are non-empty. */
  function TypeWithSeparator(numberType: Option<string>, relativeDate: Option<string>): string {
    var t := Append("", numberType);
    if !IsEmpty(numberType) && !IsEmpty(relativeDate) then t + ", " else t
  }

  /** The call types of PhoneLoader. */
  const INCOMING_TYPE: int := 1
  const OUTGOING_TYPE: int := 2
  const MISSED_TYPE: int := 3
  const VOICEMAIL_TYPE: int := 4

  /** The number of call-type icon views of an item. */
  const MAX_CALL_TYPE_ICONS: nat := 3

  /** The call-type drawables. */
  datatype CallTypeIcon = CallReceived | CallMade | CallMissed | CallVoicemail

  /** One call-type icon view: visible with a drawable, or gone. */
  datatype IconView = Shown(icon: CallTypeIcon) | Gone

  /** getCallTypeDrawableResId: an unknown call type is shown as a missed call. */
  function CallTypeDrawable(callType: int): (icon: CallTypeIcon)
    ensures icon == CallReceived <==> callType == INCOMING_TYPE
    ensures icon == CallMade <==> callType == OUTGOING_TYPE
    ensures icon == CallVoicemail <==> callType == VOICEMAIL_TYPE
    ensures icon == CallMissed <==> callType !in {INCOMING_TYPE, OUTGOING_TYPE, VOICEMAIL_TYPE}
  {
    if callType == INCOMING_TYPE then CallReceived
    else if callType == OUTGOING_TYPE then CallMade
    else if callType == MISSED_TYPE then CallMissed
    else if callType == VOICEMAIL_TYPE then CallVoicemail
    else CallMissed
  }

  /**
   * The icon views of a run with the given call types: the first min(|callTypes|, 3) show
   * the drawables of the first call types in order, the remaining views are gone.
   */
  function IconViewsOf(callTypes: seq<int>): (views: seq<IconView>)
    ensures |views| == MAX_CALL_TYPE_ICONS
    ensures forall i :: 0 <= i < |views| && i < |callTypes| ==> views[i] == Shown(CallTypeDrawable(callTypes[i]))
    ensures forall i :: |callTypes| <= i < |views| ==> views[i] == Gone
  {
    seq(MAX_CALL_TYPE_ICONS, i requires 0 <= i < MAX_CALL_TYPE_ICONS =>
      if i < |callTypes| then Shown(CallTypeDrawable(callTypes[i])) else Gone)
  }

  /**
   * getCallTypeIcon: fills the three icon views one by one, as IconViewsOf describes.
   * `callTypes` is what UiCallManager.getCallTypes returns for the run.
   */
  method CallTypeIconViews(callTypes: seq<int>) returns (views: seq<IconView>)
    ensures |views| == MAX_CALL_TYPE_ICONS
    ensures forall i :: 0 <= i < |views| && i < |callTypes| ==> views[i] == Shown(CallTypeDrawable(callTypes[i]))
    ensures forall i :: |callTypes| <= i < |views| ==> views[i] == Gone
    ensures views == IconViewsOf(callTypes)
  {
    var icons := if |callTypes| < MAX_CALL_TYPE_ICONS then |callTypes| else MAX_CALL_TYPE_ICONS;
    views := [];
    var i := 0;
    while i < icons
      invariant 0 <= i <= icons && |views| == i
      invariant forall k :: 0 <= k < i ==> views[k] == Shown(CallTypeDrawable(callTypes[k]))
    {
      views := views + [Shown(CallTypeDrawable(callTypes[i]))];
      i := i + 1;
    }
    while i < MAX_CALL_TYPE_ICONS
      invariant icons <= i <= MAX_CALL_TYPE_ICONS && |views| == i
      invariant forall k :: 0 <= k < icons ==> views[k] == Shown(CallTypeDrawable(callTypes[k]))
      invariant forall k :: icons <= k < i ==> views[k] == Gone
    {
      views := views + [Gone];
      i := i + 1;
    }
  }

  /** makeId: the number, '_', then the row id in decimal. */
  function MakeId(number: string, id: int): (r: string)
    ensures |r| > |number| && r[..|number|] == number && r[|number|] == '_'
  {
    number + "_" + DecimalString(id)
  }

  /** getNumberFromCarMenuId: everything before the last '_'; an id without one makes substring throw. */
  function NumberFromCarMenuId(id: string): (r: Result<string>)
    ensures r.Throws? <==> '_' !in id
    ensures r.Ok? ==> |r.value| < |id| && r.value + "_" == id[..|r.value| + 1] && '_' !in id[|r.value| + 1..]
  {
    var index := LastIndexOfChar(id, '_');
    if index < 0 then Throws(IndexOutOfBoundsException(""))
    else Ok(id[..index])
  }

  /** The number is read back from any id made from it, whatever the number contains. */
  lemma NumberFromMakeId(number: string, id: int)
    ensures NumberFromCarMenuId(MakeId(number, id)) == Ok(number)
  {
    var s := MakeId(number, id);
    var digits := DecimalString(id);
    assert s == number + "_" + digits;
    var index := LastIndexOfChar(s, '_');
    assert s[|number|] == '_';
    assert index != -1;
    assert s[..|number|] == number;
  }

  /** isUriNumber: a non-null number containing "@" or "%40". */
  function IsUriNumber(number: Option<string>): (b: bool)
    ensures b <==> number.Some? && ('@' in number.value || exists i :: OccursAt(number.value, "%40", i))
  {
    if number.None? then false
    else
      assert Contains(number.value, "@") <==> '@' in number.value by {
        if '@' in number.value {
          var i :| 0 <= i < |number.value| && number.value[i] == '@';
          assert OccursAt(number.value, "@", i);
        }
        if Contains(number.value, "@") {
          var i :| OccursAt(number.value, "@", i);
          assert number.value[i..i + 1][0] == number.value[i];
        }
      }
      Contains(number.value, "@") || Contains(number.value, "%40")
  }

  /**
   * splitSipAddress: the user part before the first '@' and the rest from it on; the two
   * parts make up the number, the first has no '@', the second is empty or starts with '@'.
   */
  function SplitSipAddress(number: string): (parts: (string, string))
    ensures parts.0 + parts.1 == number
    ensures '@' !in parts.0
    ensures |parts.1| == 0 || parts.1[0] == '@'
  {
    var index := IndexOfChar(number, '@');
    if index == -1 then (number, "")
    else
      assert number[..index] + number[index..] == number;
      (number[..index], number[index..])
  }

  /** compareSipAddresses: two nulls are equal, one null is not, otherwise both halves must agree. */
  function CompareSipAddresses(number1: Option<string>, number2: Option<string>): (b: bool)
    ensures number1.None? || number2.None? ==> (b <==> number1.None? && number2.None?)
    ensures number1.Some? && number2.Some? ==>
              (b <==> SplitSipAddress(number1.value) == SplitSipAddress(number2.value))
  {
    if number1.None? || number2.None? then number1.None? && number2.None?
    else
      var address1 := SplitSipAddress(number1.value);
      var address2 := SplitSipAddress(number2.value);
      address1.0 == address2.0 && address1.1 == address2.1
  }

  /** Since the halves make up the address, two SIP addresses compare equal exactly when they are equal. */
  lemma CompareSipAddressesIsEquality(number1: Option<string>, number2: Option<string>)
    ensures CompareSipAddresses(number1, number2) <==> number1 == number2
  {
    if number1.Some? && number2.Some? && CompareSipAddresses(number1, number2) {
      var a1 := SplitSipAddress(number1.value);
      var a2 := SplitSipAddress(number2.value);
      assert number1.value == a1.0 + a1.1 == a2.0 + a2.1 == number2.value;
    }
  }

  /** equalNumbers: SIP comparison when either is a URI, else PhoneNumberUtils.compare. */
  function EqualNumbers(number1: Option<string>, number2: Option<string>, env: Env): bool {
    if IsUriNumber(number1) || IsUriNumber(number2) then CompareSipAddresses(number1, number2)
    else env.phoneCompare(number1, number2)
  }

  /** Numbers of which one is a URI are the same number exactly when they are equal strings. */
  lemma EqualNumbersMeaning(number1: Option<string>, number2: Option<string>, env: Env)
    ensures IsUriNumber(number1) || IsUriNumber(number2) ==>
              (EqualNumbers(number1, number2, env) <==> number1 == number2)
    ensures !IsUriNumber(number1) && !IsUriNumber(number2) ==>
              EqualNumbers(number1, number2, env) == env.phoneCompare(number1, number2)
  {
    CompareSipAddressesIsEquality(number1, number2);
  }

  /** The end of the run that starts at `start`, scanning on from `j`. */
  function RunEnd(rows: seq<Row>, start: nat, j: nat, same: Matcher): (end: nat)
    requires start < j <= |rows|
    ensures j <= end <= |rows|
    ensures forall k :: j <= k < end ==> same(rows[start].number, rows[k].number)
    ensures end < |rows| ==> !same(rows[start].number, rows[end].number)
    decreases |rows| - j
  {
    if j < |rows| && same(rows[start].number, rows[j].number) then RunEnd(rows, start, j + 1, same)
    else j
  }

  /**
   * The length of the maximal run of rows from `start` whose numbers equal the number at
   * `start`: every row of the run does, and the row after it does not.
   */
  function RunLength(rows: seq<Row>, start: nat, same: Matcher): (n: nat)
    requires start < |rows|
    ensures 1 <= n <= |rows| - start
    ensures forall k :: start < k < start + n ==> same(rows[start].number, rows[k].number)
    ensures start + n < |rows| ==> !same(rows[start].number, rows[start + n].number)
  {
    RunEnd(rows, start, start + 1, same) - start
  }

  /**
   * The item of the run of `count` rows starting with `row`; its remote views are the
   * call-type icons of the run's call types.
   */
  function MakeItem(row: Row, number: string, count: nat, env: Env): (item: Item)
    ensures item.CallItem? && item.count == count
    ensures item.iconViews == IconViewsOf(env.callTypes(row, count))
    ensures |item.iconViews| == MAX_CALL_TYPE_ICONS
  {
    var isVoicemail := env.voicemailNumber == Some(number);
    var name := ContactName(row.cachedName, number, count, isVoicemail, env);
    var millis := if env.hasDateColumn then row.date else 0;
    var relativeDate := RelativeTime(millis, env);
    var text := SecondaryText(isVoicemail, env.typeFromNumber(number), relativeDate);
    CallItem(MakeId(number, row.rowId), name, text, count, IconViewsOf(env.callTypes(row, count)))
  }

  /** An item's id gives back the number of its run, which getNumberFromCarMenuId relies on. */
  lemma ItemIdGivesNumber(row: Row, number: string, count: nat, env: Env)
    ensures NumberFromCarMenuId(MakeItem(row, number, count, env).id) == Ok(number)
  {
    NumberFromMakeId(number, row.rowId);
  }

  /** How two numbers are compared when grouping calls. */
  type Matcher = (Option<string>, Option<string>) -> bool

  /** How the item of a run is made from its first row, its number and its length. */
  type Maker = (Row, string, nat) -> Item

  /** equalNumbers, with the task's environment. */
  function NumberMatcher(env: Env): (same: Matcher)
  {
    (number1: Option<string>, number2: Option<string>) => EqualNumbers(number1, number2, env)
  }

  /** The formatting of the runs' items, with the task's environment. */
  function ItemMaker(env: Env): (make: Maker)
  {
    (row: Row, number: string, count: nat) => MakeItem(row, number, count, env)
  }

  /**
   * The items of the rows from `start`, one per maximal run, in cursor order, each made by
   * `make` from the run's first row, its number and its length; a run whose first number is
   * null makes `number.equals` throw.
   */
  function ListingFrom(rows: seq<Row>, start: nat, same: Matcher, make: Maker)
    : (r: Result<seq<Item>>)
    requires start <= |rows|
    decreases |rows| - start
  {
    if start == |rows| then Ok([])
    else
      var count := RunLength(rows, start, same);
      var number := rows[start].number;
      if number.None? then Throws(NullPointerException)
      else
        var rest := ListingFrom(rows, start + count, same, make);
        if rest.Throws? then rest else Ok([make(rows[start], number.value, count)] + rest.value)
  }

  /** The total count of a list of items. */
  function TotalCount(items: seq<Item>): nat {
    if |items| == 0 then 0
    else (if items[0].CallItem? then items[0].count else 0) + TotalCount(items[1..])
  }

  /** An item maker that makes a call item counting the run's rows. */
  ghost predicate CountsRuns(make: Maker) {
    forall row, number, count :: make(row, number, count).CallItem? && make(row, number, count).count == count
  }

  /** The runs cover the rows: the items' counts add up to the number of rows. */
  lemma {:induction false} ListingCoversRows(rows: seq<Row>, start: nat, same: Matcher, make: Maker)
    requires start <= |rows| && CountsRuns(make) && ListingFrom(rows, start, same, make).Ok?
    ensures TotalCount(ListingFrom(rows, start, same, make).value) == |rows| - start
    decreases |rows| - start
  {
    if start < |rows| {
      var count := RunLength(rows, start, same);
      var rest := ListingFrom(rows, start + count, same, make);
      ListingCoversRows(rows, start + count, same, make);
      var items := [make(rows[start], rows[start].number.value, count)] + rest.value;
      assert items[1..] == rest.value;
    }
  }

  /** The call-log items are call items counting their runs. */
  lemma MakeItemCountsRuns(env: Env)
    ensures CountsRuns(ItemMaker(env))
  {
  }

  /** Prefixes `done` to a listing of the rest. */
  function Prepend(done: seq<Item>, rest: Result<seq<Item>>): Result<seq<Item>> {
    if rest.Throws? then rest else Ok(done + rest.value)
  }

  /** The listing so far, extended by the item of the run at `i`. */
  lemma ListingAdvance(rows: seq<Row>, i: nat, same: Matcher, make: Maker, added: seq<Item>)
    requires i < |rows| && rows[i].number.Some?
    requires ListingFrom(rows, 0, same, make) == Prepend(added, ListingFrom(rows, i, same, make))
    ensures ListingFrom(rows, 0, same, make)
            == Prepend(added + [make(rows[i], rows[i].number.value, RunLength(rows, i, same))],
                       ListingFrom(rows, i + RunLength(rows, i, same), same, make))
  {
    var rest := ListingFrom(rows, i + RunLength(rows, i, same), same, make);
    if rest.Ok? {
      var item := make(rows[i], rows[i].number.value, RunLength(rows, i, same));
      assert added + ([item] + rest.value) == (added + [item]) + rest.value;
    }
  }

  /** A run whose first number is null makes the whole listing throw. */
  lemma ListingStopsAtNull(rows: seq<Row>, i: nat, same: Matcher, make: Maker, added: seq<Item>)
    requires i < |rows| && rows[i].number.None?
    requires ListingFrom(rows, 0, same, make) == Prepend(added, ListingFrom(rows, i, same, make))
    ensures ListingFrom(rows, 0, same, make).Throws?
  {
  }

  /** The call log's items: its runs, formatted as the dialer shows them. */
  function CallLogItems(rows: seq<Row>, env: Env): Result<seq<Item>> {
    ListingFrom(rows, 0, NumberMatcher(env), ItemMaker(env))
  }

  /** The counts of the call log's items add up to the number of calls in it. */
  lemma CallLogItemsCoverRows(rows: seq<Row>, env: Env)
    requires CallLogItems(rows, env).Ok?
    ensures TotalCount(CallLogItems(rows, env).value) == |rows|
  {
    MakeItemCountsRuns(env);
    ListingCoversRows(rows, 0, NumberMatcher(env), ItemMaker(env));
  }

  lemma PrependNothing(rest: Result<seq<Item>>)
    ensures Prepend([], rest) == rest
  {
    if rest.Ok? {
      assert [] + rest.value == rest.value;
    }
  }

  class CallLogListingTask {
    const cursor: Option<seq<Row>>
    const env: Env
    /** equalNumbers, as the grouping loop calls it. */
    const same: Matcher
    /** The building of one call item, as the grouping loop does it. */
    const make: Maker
    var items: seq<Item>
    var cursorClosed: bool

    constructor (cursor: Option<seq<Row>>, env: Env)
      ensures this.cursor == cursor && this.env == env && items == [] && !cursorClosed
      ensures same == NumberMatcher(env) && make == ItemMaker(env)
    {
      this.cursor := cursor;
      this.env := env;
      same := NumberMatcher(env);
      make := ItemMaker(env);
      items := [];
      cursorClosed := false;
    }

    /**
     * doInBackground's inner loop: the calls after the one at `i` are counted while their
     * number equals its number.
     */
    static method CountRun(rows: seq<Row>, i: nat, same: Matcher) returns (count: nat)
      requires i < |rows|
      ensures count == RunLength(rows, i, same)
    {
      count := 1;
      var number := rows[i].number;
      var j := i + 1;
      while j < |rows| && same(number, rows[j].number)
        invariant i + 1 <= j <= |rows| && count == j - i
        invariant RunEnd(rows, i, j, same) == RunEnd(rows, i, i + 1, same)
      {
        count := count + 1;
        j := j + 1;
      }
    }

    /**
     * doInBackground's outer loop: from each call not yet grouped, its run is counted and one
     * item is made for it; a run whose number is null throws NullPointerException.
     */
    static method ListRuns(rows: seq<Row>, same: Matcher, make: Maker) returns (added: seq<Item>, r: Result<()>)
      ensures r.Ok? <==> ListingFrom(rows, 0, same, make).Ok?
      ensures r.Ok? ==> added == ListingFrom(rows, 0, same, make).value
    {
      added := [];
      var i := 0;
      PrependNothing(ListingFrom(rows, 0, same, make));
      while i < |rows|
        invariant 0 <= i <= |rows|
        invariant ListingFrom(rows, 0, same, make) == Prepend(added, ListingFrom(rows, i, same, make))
        decreases |rows| - i
      {
        var number := rows[i].number;
        var count := CountRun(rows, i, same);
        if number.None? {
          ListingStopsAtNull(rows, i, same, make, added);
          return added, Throws(NullPointerException);
        }
        var item := make(rows[i], number.value, count);
        ListingAdvance(rows, i, same, make, added);
        added := added + [item];
        i := i + count;
      }
      assert ListingFrom(rows, i, same, make) == Ok([]);
      assert added + [] == added;
      return added, Ok(());
    }

    /**
     * doInBackground: one item per maximal run of equal numbers, appended in cursor order,
     * then the cursor is closed; when nothing was added the empty placeholder is the only
     * item.
     */
    method DoInBackground() returns (r: Result<()>)
      modifies this`items, this`cursorClosed
      ensures cursor.Some? ==> cursorClosed
      ensures cursor.None? ==>
                r == Ok(()) && items == old(items) + (if |old(items)| == 0 then [EmptyPlaceholder] else [])
      ensures cursor.Some? ==> (r.Ok? <==> ListingFrom(cursor.value, 0, same, make).Ok?)
      ensures cursor.Some? && r.Ok? ==>
                var listed := old(items) + ListingFrom(cursor.value, 0, same, make).value;
                items == if |listed| == 0 then [EmptyPlaceholder] else listed
    {
      if cursor.Some? {
        var added;
        added, r := ListRuns(cursor.value, same, make);
        items := items + added;
        cursorClosed := true;
        if r.Throws? {
          return;
        }
      }
      if |items| == 0 {
        items := items + [EmptyPlaceholder];
      }
      return Ok(());
    }
  }

  /**
   * A task run on a cursor: with no cursor only the placeholder is listed; otherwise one
   * item per run of the call log, and the placeholder exactly when the log has no calls.
   */
  method ListCallLog(cursor: Option<seq<Row>>, env: Env) returns (items: seq<Item>, r: Result<()>)
    ensures cursor.None? ==> r == Ok(()) && items == [EmptyPlaceholder]
    ensures cursor.Some? ==> (r.Ok? <==> CallLogItems(cursor.value, env).Ok?)
    ensures cursor.Some? && r.Ok? && |cursor.value| > 0 ==> items == CallLogItems(cursor.value, env).value
    ensures cursor.Some? && r.Ok? ==> (items == [EmptyPlaceholder] <==> |cursor.value| == 0)
  {
    var task := new CallLogListingTask(cursor, env);
    r := task.DoInBackground();
    items := task.items;
    if cursor.Some? && r.Ok? {
      CallLogItemsCoverRows(cursor.value, env);
      var listed := CallLogItems(cursor.value, env).value;
      if |cursor.value| > 0 {
        assert listed != [] && listed != [EmptyPlaceholder];
      }
    }
  }
}
