/**
 * StrequentsAdapter (ui.strequent): the favourites page's list, an optional last-call row at
 * position 0 followed by the starred and frequent contacts, the whole capped at a maximum
 * item count when one is set.
 */
module StrequentsAdapters {
  import opened Wrappers
  import UiCallLogs

  /** The adapter's view types. */
  const VIEW_TYPE_LASTCALL: int := 1
  const VIEW_TYPE_STREQUENT: int := 2

  /** The largest number of call records the last-call row shows. */
  const MAX_NUM_CALL_RECORDS: int := 3

  /** A starred or frequent contact: the fields the row binds. */
  datatype ContactEntry = ContactEntry(number: string, displayName: Option<string>, isVoicemail: bool, isStarred: bool)

  /** The RecyclerView notifications an adapter sends. */
  datatype Notification = ItemChanged(position: int) | DataSetChanged

  // ---------------------------------------------------------------------------------------
  // The index arithmetic both strequents adapters share.
  // ---------------------------------------------------------------------------------------

  /**
   * getItemCount: the contacts plus the last-call row, capped at maxItems when it is not
   * negative.
   */
  function ItemCount(strequentCount: nat, hasLastCall: bool, maxItems: int): nat
  {
    var itemCount := strequentCount + if hasLastCall then 1 else 0;
    if maxItems >= 0 then (if maxItems < itemCount then maxItems else itemCount) else itemCount
  }

  /** getItemViewType: the last-call type only at position 0, and only when there is a last call. */
  function ItemViewType(position: int, hasLastCall: bool): int
  {
    if position == 0 && hasLastCall then VIEW_TYPE_LASTCALL else VIEW_TYPE_STREQUENT
  }

  /** The index into the contact list a strequent row at `position` reads. */
  function DataIndex(position: int, hasLastCall: bool): int
  {
    if hasLastCall then position - 1 else position
  }

  /**
   * The count never exceeds the uncapped count or a non-negative cap, and it is the uncapped
   * count whenever that fits under the cap.
   */
  lemma ItemCountBounds(strequentCount: nat, hasLastCall: bool, maxItems: int)
    ensures ItemCount(strequentCount, hasLastCall, maxItems) <= strequentCount + (if hasLastCall then 1 else 0)
    ensures maxItems >= 0 ==> ItemCount(strequentCount, hasLastCall, maxItems) <= maxItems
    ensures (maxItems < 0 || strequentCount + (if hasLastCall then 1 else 0) <= maxItems) ==>
              ItemCount(strequentCount, hasLastCall, maxItems) == strequentCount + (if hasLastCall then 1 else 0)
    ensures maxItems >= 0 && maxItems < strequentCount + (if hasLastCall then 1 else 0) ==>
              ItemCount(strequentCount, hasLastCall, maxItems) == maxItems
  {
  }

  /**
   * Every position the list shows is either the last-call row or a strequent row whose data
   * index is inside the contact list.
   */
  lemma ShownRowsInRange(strequentCount: nat, hasLastCall: bool, maxItems: int, position: int)
    requires 0 <= position < ItemCount(strequentCount, hasLastCall, maxItems)
    ensures ItemViewType(position, hasLastCall) == VIEW_TYPE_LASTCALL <==> position == 0 && hasLastCall
    ensures ItemViewType(position, hasLastCall) == VIEW_TYPE_STREQUENT ==>
              0 <= DataIndex(position, hasLastCall) < strequentCount
  {
  }

  /**
   * Without a cap every contact is shown exactly once: contact i is at position i, shifted
   * by one when there is a last call, and no other strequent position reads it.
   */
  lemma EachContactShownOnce(strequentCount: nat, hasLastCall: bool, i: int)
    requires 0 <= i < strequentCount
    ensures var position := if hasLastCall then i + 1 else i;
              && position < ItemCount(strequentCount, hasLastCall, -1)
              && ItemViewType(position, hasLastCall) == VIEW_TYPE_STREQUENT
              && DataIndex(position, hasLastCall) == i
    ensures forall p ::
              (0 <= p < ItemCount(strequentCount, hasLastCall, -1) &&
               ItemViewType(p, hasLastCall) == VIEW_TYPE_STREQUENT && DataIndex(p, hasLastCall) == i) ==>
                p == (if hasLastCall then i + 1 else i)
  {
  }

  /** The call types of the records, in order. */
  function CallTypes(records: seq<UiCallLogs.Record>): (types: seq<int>)
    ensures |types| == |records|
    ensures forall i :: 0 <= i < |records| ==> types[i] == records[i].callType
  {
    seq(|records|, i requires 0 <= i < |records| => records[i].callType)
  }

  /** A CallLogViewHolder's views, as the adapter sets them. */
  class CallLogViewHolder {
    /** The view type it was created for. */
    const itemViewType: int
    var title: Option<string>
    var text: string
    /** The item view's tag: the number bound to it. */
    var tag: Option<string>
    /** The call-type icons, in order. */
    var callTypeIcons: seq<int>
    var callTypeIconsVisible: bool
    /** The starred icon. */
    var smallIconVisible: bool
    var callTypeVisible: bool

    constructor (itemViewType: int)
      ensures this.itemViewType == itemViewType
      ensures title.None? && text == "" && tag.None? && callTypeIcons == []
      ensures !callTypeIconsVisible && !smallIconVisible && !callTypeVisible
    {
      this.itemViewType := itemViewType;
      title := None;
      text := "";
      tag := None;
      callTypeIcons := [];
      callTypeIconsVisible := false;
      smallIconVisible := false;
      callTypeVisible := false;
    }
  }

  /** String.valueOf of a CharSequence: "null" for null. */
  function ValueOf(s: Option<string>): string
  {
    if s.None? then "null" else s.value
  }

  /** A holder as onBindStrequentView leaves it for an entry. */
  ghost predicate StrequentBound(holder: CallLogViewHolder, entry: ContactEntry, typeFromNumber: string -> Option<string>)
    reads holder
  {
    && holder.text == (if entry.isVoicemail then "" else ValueOf(typeFromNumber(entry.number)))
    && holder.tag == Some(entry.number)
    && holder.callTypeIcons == []
    && holder.title == entry.displayName
    && holder.smallIconVisible == entry.isStarred
  }

  /**
   * onBindStrequentView, the same in both strequents adapters: the number's type (nothing
   * for voicemail), the number as tag, no call-type icons, the name, and the star for a
   * starred contact. `typeFromNumber` is TelecomUtils.getTypeFromNumber.
   */
  method BindStrequentView(holder: CallLogViewHolder, entry: ContactEntry, typeFromNumber: string -> Option<string>)
    modifies holder
    ensures StrequentBound(holder, entry, typeFromNumber)
    ensures holder.callTypeIconsVisible == old(holder.callTypeIconsVisible)
    ensures holder.callTypeVisible == old(holder.callTypeVisible)
  {
    var secondaryText := "";
    if !entry.isVoicemail {
      secondaryText := ValueOf(typeFromNumber(entry.number));
    }
    holder.text := secondaryText;
    holder.tag := Some(entry.number);
    holder.callTypeIcons := [];
    holder.title := entry.displayName;
    holder.smallIconVisible := entry.isStarred;
  }

  class StrequentsAdapter {
    /** The item cap; -1 means none. */
    var maxItems: int
    var strequentList: Option<seq<ContactEntry>>
    var lastCall: UiCallLogs.UiCallLog?
    /** Whether a StrequentsListener is set. */
    var hasListener: bool
    /** The notifications sent to the RecyclerView, in order. */
    var notifications: seq<Notification>
    /** The view holders handed to the listener's onContactClicked, in order. */
    var clicked: seq<CallLogViewHolder>
    /** TelecomUtils.getTypeFromNumber; null maps to the text "null". */
    const typeFromNumber: string -> Option<string>

    constructor (typeFromNumber: string -> Option<string>)
      ensures maxItems == -1 && strequentList.None? && lastCall == null && !hasListener
      ensures notifications == [] && clicked == []
      ensures this.typeFromNumber == typeFromNumber
    {
      maxItems := -1;
      strequentList := None;
      lastCall := null;
      hasListener := false;
      notifications := [];
      clicked := [];
      this.typeFromNumber := typeFromNumber;
    }

    method SetStrequentsListener(present: bool)
      modifies this`hasListener
      ensures hasListener == present
    {
      hasListener := present;
    }

    /**
     * setLastCall: the first row changes when there already was a last call; otherwise the
     * whole data set does, since a row is added.
     */
    method SetLastCall(lastCall: UiCallLogs.UiCallLog?)
      modifies this`lastCall, this`notifications
      ensures this.lastCall == lastCall
      ensures notifications == old(notifications) + [if old(this.lastCall) != null then ItemChanged(0) else DataSetChanged]
    {
      if this.lastCall != null {
        notifications := notifications + [ItemChanged(0)];
      } else {
        notifications := notifications + [DataSetChanged];
      }
      this.lastCall := lastCall;
    }

    method SetStrequentList(strequentList: Option<seq<ContactEntry>>)
      modifies this`strequentList, this`notifications
      ensures this.strequentList == strequentList
      ensures notifications == old(notifications) + [DataSetChanged]
    {
      this.strequentList := strequentList;
      notifications := notifications + [DataSetChanged];
    }

    method SetMaxItems(maxItems: int)
      modifies this`maxItems
      ensures this.maxItems == maxItems
    {
      this.maxItems := maxItems;
    }

    function StrequentCount(): nat
      reads this
    {
      if strequentList.None? then 0 else |strequentList.value|
    }

    function GetItemCount(): nat
      reads this
    {
      ItemCount(StrequentCount(), lastCall != null, maxItems)
    }

    function GetItemViewType(position: int): int
      reads this
    {
      ItemViewType(position, lastCall != null)
    }

    /**
     * onBindViewHolder: a last-call holder shows the last call; any other holder shows the
     * contact at the position, one lower when there is a last call, which throws when the
     * list is null or the index is outside it.
     */
    method OnBindViewHolder(holder: CallLogViewHolder, position: int) returns (r: Result<()>)
      modifies holder
      ensures holder.itemViewType == VIEW_TYPE_LASTCALL ==> r.Ok? && LastCallBound(holder)
      ensures holder.itemViewType != VIEW_TYPE_LASTCALL && strequentList.None? ==>
                r == Throws(NullPointerException)
      ensures holder.itemViewType != VIEW_TYPE_LASTCALL && strequentList.Some? ==>
                (r.Ok? <==> 0 <= DataIndex(position, lastCall != null) < |strequentList.value|)
      ensures holder.itemViewType != VIEW_TYPE_LASTCALL && r.Ok? ==>
                StrequentBound(holder, strequentList.value[DataIndex(position, lastCall != null)], typeFromNumber) &&
                holder.callTypeVisible && holder.callTypeIconsVisible == old(holder.callTypeIconsVisible)
      ensures r.Throws? ==> r.exception.NullPointerException? || r.exception.IndexOutOfBoundsException?
    {
      if holder.itemViewType == VIEW_TYPE_LASTCALL {
        OnBindLastCallRow(holder);
        return Ok(());
      }
      var positionIntoData := position;
      if lastCall != null {
        positionIntoData := positionIntoData - 1;
      }
      if strequentList.None? {
        return Throws(NullPointerException);
      }
      if !(0 <= positionIntoData < |strequentList.value|) {
        return Throws(IndexOutOfBoundsException(""));
      }
      BindStrequentView(holder, strequentList.value[positionIntoData], typeFromNumber);
      holder.callTypeVisible := true;
      r := Ok(());
    }

    /**
     * What onBindLastCallRow leaves in the holder: nothing changed without a last call;
     * otherwise the title, text and number of the last call, no starred icon, and one
     * call-type icon per record among its first MAX_NUM_CALL_RECORDS.
     */
    twostate predicate LastCallBound(holder: CallLogViewHolder)
      reads this, holder, lastCall
    {
      && (lastCall == null ==> unchanged(holder))
      && (lastCall != null ==>
            && holder.title == Some(lastCall.title)
            && holder.text == lastCall.text
            && holder.tag == Some(lastCall.number)
            && !holder.smallIconVisible
            && holder.callTypeIconsVisible
            && holder.callTypeIcons == CallTypes(lastCall.CallRecordsUpTo(MAX_NUM_CALL_RECORDS))
            && |holder.callTypeIcons| <= MAX_NUM_CALL_RECORDS
            && holder.callTypeVisible == old(holder.callTypeVisible))
    }

    /** onBindLastCallRow: binds the last call, as LastCallBound states. */
    method OnBindLastCallRow(holder: CallLogViewHolder)
      modifies holder
      ensures LastCallBound(holder)
    {
      if lastCall == null {
        return;
      }
      holder.title := Some(lastCall.title);
      holder.text := lastCall.text;
      holder.tag := Some(lastCall.number);
      holder.smallIconVisible := false;
      holder.callTypeIcons := [];
      holder.callTypeIconsVisible := true;
      var records := lastCall.CallRecordsUpTo(MAX_NUM_CALL_RECORDS);
      var i := 0;
      while i < |records|
        invariant 0 <= i <= |records|
        invariant holder.callTypeIcons == CallTypes(records[..i])
        invariant holder.title == Some(lastCall.title) && holder.text == lastCall.text
        invariant holder.tag == Some(lastCall.number)
        invariant !holder.smallIconVisible && holder.callTypeIconsVisible
        invariant holder.callTypeVisible == old(holder.callTypeVisible)
      {
        holder.callTypeIcons := holder.callTypeIcons + [records[i].callType];
        i := i + 1;
      }
      assert records[..i] == records;
    }

    /** onViewClicked: the holder goes to the listener, when there is one. */
    method OnViewClicked(holder: CallLogViewHolder)
      modifies this`clicked
      ensures clicked == old(clicked) + if hasListener then [holder] else []
    {
      if hasListener {
        clicked := clicked + [holder];
      }
    }
  }

  /**
   * A holder created for its position's view type binds without throwing at every position
   * the adapter counts.
   */
  method BindShownRow(adapter: StrequentsAdapter, position: int) returns (holder: CallLogViewHolder, r: Result<()>)
    requires 0 <= position < adapter.GetItemCount()
    ensures fresh(holder)
    ensures r.Ok?
  {
    ShownRowsInRange(adapter.StrequentCount(), adapter.lastCall != null, adapter.maxItems, position);
    holder := new CallLogViewHolder(adapter.GetItemViewType(position));
    r := adapter.OnBindViewHolder(holder, position);
  }
}
