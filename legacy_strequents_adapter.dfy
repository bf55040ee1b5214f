/**
 * StrequentsAdapter (the older top-level one): the same layout as the ui.strequent
 * adapter, with a last-call row built from a CallLogListingTask item whose secondary text
 * joins the number's type and the call's relative time.
 */
module LegacyStrequentsAdapters {
  import opened Wrappers
  import opened StrequentsAdapters
  import CallLogListings

  /** CallLogListingTask.CallLogItem, as the last call: its title, number, call types and time. */
  datatype CallLogItem = CallLogItem(title: string, number: string, callTypes: seq<int>, callTimestamp: int)

  /** min(length, cap): how many call-type icons the last-call row adds. */
  function IconCount(callTypes: seq<int>, maxCallTypeIcons: nat): (n: nat)
    ensures n <= |callTypes| && n <= maxCallTypeIcons
    ensures n == |callTypes| || n == maxCallTypeIcons
  {
    if |callTypes| < maxCallTypeIcons then |callTypes| else maxCallTypeIcons
  }

  class StrequentsAdapter {
    /** The item cap; -1 means none. */
    var maxItems: int
    var strequentList: Option<seq<ContactEntry>>
    var lastCall: Option<CallLogItem>
    /** Whether a StrequentsListener is set. */
    var hasListener: bool
    /** The notifications sent to the RecyclerView, in order. */
    var notifications: seq<Notification>
    /** The view holders handed to the listener's onContactClicked, in order. */
    var clicked: seq<CallLogViewHolder>
    /** TelecomUtils.getTypeFromNumber and DateUtils' relative time span. */
    const env: CallLogListings.Env
    /** PhoneNumberUtils.isVoiceMailNumber. */
    const isVoiceMailNumber: string -> bool
    /** CallTypeIconsView.MAX_CALL_TYPE_ICONS. */
    const maxCallTypeIcons: nat

    constructor (env: CallLogListings.Env, isVoiceMailNumber: string -> bool, maxCallTypeIcons: nat)
      ensures maxItems == -1 && strequentList.None? && lastCall.None? && !hasListener
      ensures notifications == [] && clicked == []
      ensures this.env == env && this.isVoiceMailNumber == isVoiceMailNumber
      ensures this.maxCallTypeIcons == maxCallTypeIcons
    {
      maxItems := -1;
      strequentList := None;
      lastCall := None;
      hasListener := false;
      notifications := [];
      clicked := [];
      this.env := env;
      this.isVoiceMailNumber := isVoiceMailNumber;
      this.maxCallTypeIcons := maxCallTypeIcons;
    }

    method SetStrequentsListener(present: bool)
      modifies this`hasListener
      ensures hasListener == present
    {
      hasListener := present;
    }

    /** setLastCall: row 0 changes when there was a last call; otherwise the data set does. */
    method SetLastCall(lastCall: Option<CallLogItem>)
      modifies this`lastCall, this`notifications
      ensures this.lastCall == lastCall
      ensures notifications == old(notifications) + [if old(this.lastCall).Some? then ItemChanged(0) else DataSetChanged]
    {
      if this.lastCall.Some? {
        notifications := notifications + [ItemChanged(0)];
      } else {
        notifications := notifications + [DataSetChanged];
      }
      this.lastCall := lastCall;
    }

    method SetStrequentList(strequentList: Option<seq<ContactEntry>>)
      modifies this`strequentList, this`notifications
      ensures this.strequentList == strequentList
      ensures notifications == old(notifications) + [DataSetChanged]
    {
      this.strequentList := strequentList;
      notifications := notifications + [DataSetChanged];
    }

    method SetMaxItems(maxItems: int)
      modifies this`maxItems
      ensures this.maxItems == maxItems
    {
      this.maxItems := maxItems;
    }

    function StrequentCount(): nat
      reads this
    {
      if strequentList.None? then 0 else |strequentList.value|
    }

    function GetItemCount(): nat
      reads this
    {
      ItemCount(StrequentCount(), lastCall.Some?, maxItems)
    }

    function GetItemViewType(position: int): int
      reads this
    {
      ItemViewType(position, lastCall.Some?)
    }

    /** The last-call row's secondary text for the item. */
    function LastCallText(item: CallLogItem): string
      reads this
    {
      CallLogListings.SecondaryText(isVoiceMailNumber(item.number), env.typeFromNumber(item.number),
                                    CallLogListings.RelativeTime(item.callTimestamp, env))
    }

    /**
     * onBindViewHolder: a last-call holder shows the last call; any other shows the contact at
     * the position, one lower when there is a last call, which throws when the list is null or
     * the index is outside it.
     */
    method OnBindViewHolder(holder: CallLogViewHolder, position: int) returns (r: Result<()>)
      modifies holder
      ensures holder.itemViewType == VIEW_TYPE_LASTCALL ==> r.Ok? && LastCallBound(holder)
      ensures holder.itemViewType != VIEW_TYPE_LASTCALL && strequentList.None? ==>
                r == Throws(NullPointerException)
      ensures holder.itemViewType != VIEW_TYPE_LASTCALL && strequentList.Some? ==>
                (r.Ok? <==> 0 <= DataIndex(position, lastCall.Some?) < |strequentList.value|)
      ensures holder.itemViewType != VIEW_TYPE_LASTCALL && r.Ok? ==>
                StrequentBound(holder, strequentList.value[DataIndex(position, lastCall.Some?)], env.typeFromNumber) &&
                holder.callTypeVisible && holder.callTypeIconsVisible == old(holder.callTypeIconsVisible)
      ensures r.Throws? ==> r.exception.NullPointerException? || r.exception.IndexOutOfBoundsException?
    {
      if holder.itemViewType == VIEW_TYPE_LASTCALL {
        OnBindLastCallRow(holder);
        return Ok(());
      }
      var positionIntoData := position;
      if lastCall.Some? {
        positionIntoData := positionIntoData - 1;
      }
      if strequentList.None? {
        return Throws(NullPointerException);
      }
      if !(0 <= positionIntoData < |strequentList.value|) {
        return Throws(IndexOutOfBoundsException(""));
      }
      BindStrequentView(holder, strequentList.value[positionIntoData], env.typeFromNumber);
      holder.callTypeVisible := true;
      r := Ok(());
    }

    /** What onBindLastCallRow leaves in the holder, as described below. */
    twostate predicate LastCallBound(holder: CallLogViewHolder)
      reads this, holder
    {
      && (lastCall.None? ==> unchanged(holder))
      && (lastCall.Some? && old(holder.tag) != Some(lastCall.value.number) ==>
            && holder.title == Some(lastCall.value.title)
            && holder.tag == Some(lastCall.value.number)
            && holder.callTypeIcons == lastCall.value.callTypes[..IconCount(lastCall.value.callTypes, maxCallTypeIcons)]
            && holder.callTypeIconsVisible && !holder.smallIconVisible)
      && (lastCall.Some? && old(holder.tag) == Some(lastCall.value.number) ==>
            && holder.title == old(holder.title) && holder.tag == old(holder.tag)
            && holder.callTypeIcons == old(holder.callTypeIcons)
            && holder.callTypeIconsVisible == old(holder.callTypeIconsVisible)
            && holder.smallIconVisible == old(holder.smallIconVisible))
      && (lastCall.Some? ==> holder.text == LastCallText(lastCall.value))
      && holder.callTypeVisible == old(holder.callTypeVisible)
    }

    /**
     * onBindLastCallRow: nothing without a last call. A holder not already tagged with the
     * call's number gets its title, tag and the first min(|call types|, cap) call-type icons;
     * a holder already showing that number keeps them. Either way the text becomes the
     * number's type (none for voicemail), ", " when both parts are non-empty, and the
     * relative time of the call when its timestamp is positive.
     */
    method OnBindLastCallRow(holder: CallLogViewHolder)
      modifies holder
      ensures LastCallBound(holder)
    {
      if lastCall.None? {
        return;
      }
      var item := lastCall.value;
      if holder.tag != Some(item.number) {
        holder.title := Some(item.title);
        holder.tag := Some(item.number);
        holder.callTypeIcons := [];
        holder.callTypeIconsVisible := true;
        holder.smallIconVisible := false;
        var icons := IconCount(item.callTypes, maxCallTypeIcons);
        var i := 0;
        while i < icons
          invariant 0 <= i <= icons
          invariant holder.callTypeIcons == item.callTypes[..i]
          invariant holder.title == Some(item.title) && holder.tag == Some(item.number)
          invariant holder.callTypeIconsVisible && !holder.smallIconVisible
          invariant holder.callTypeVisible == old(holder.callTypeVisible)
        {
          holder.callTypeIcons := holder.callTypeIcons + [item.callTypes[i]];
          i := i + 1;
        }
      }
      holder.text := LastCallText(item);
    }

    /** onViewClicked: the holder goes to the listener, when there is one. */
    method OnViewClicked(holder: CallLogViewHolder)
      modifies this`clicked
      ensures clicked == old(clicked) + if hasListener then [holder] else []
    {
      if hasListener {
        clicked := clicked + [holder];
      }
    }
  }

  /** Binding a holder twice to the same last call gives the same holder as binding it once. */
  method BindLastCallTwice(adapter: StrequentsAdapter, holder: CallLogViewHolder)
    modifies holder
    ensures adapter.lastCall.Some? ==>
              holder.tag == Some(adapter.lastCall.value.number) && holder.text == adapter.LastCallText(adapter.lastCall.value)
  {
    adapter.OnBindLastCallRow(holder);
    ghost var once := (holder.title, holder.tag, holder.callTypeIcons, holder.text);
    adapter.OnBindLastCallRow(holder);
    assert (holder.title, holder.tag, holder.callTypeIcons, holder.text) == once;
  }
}
