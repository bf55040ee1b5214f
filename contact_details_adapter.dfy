/**
 * ContactDetailsAdapter (ui.contact): the rows of the contact details page, a header row at
 * position 0 followed by one row per phone number of the contact, every card outlined by its
 * place in the list.
 */
module ContactDetailsAdapters {
  import opened Wrappers
  import opened ContactViews
  import opened ListItemOutlines
  import opened JavaStrings

  const ID_HEADER: int := 1
  const ID_CONTENT: int := 2
  const TELEPHONE_URI_PREFIX: string := "tel:"

  /** The layouts onCreateViewHolder inflates. */
  datatype Layout = ContactDetailNameImage | ContactDetailsNumber

  /**
   * A bound row: the card's corners, then what the row shows and what a click on the card does.
   * `Unbound` is a holder of an unknown view type, which only gets its outline.
   */
  datatype Row =
    | HeaderRow(corners: Corners, title: UiText, cardClick: Action)
    | NumberRow(corners: Corners, title: UiText, text: UiText, cardClick: Action)
    | Unbound(corners: Corners)

  /** getItemViewType: the header at position 0, content everywhere else. */
  function ItemViewType(position: int): (t: int)
    ensures t == ID_HEADER <==> position == 0
    ensures t == ID_CONTENT <==> position != 0
  {
    if position == 0 then ID_HEADER else ID_CONTENT
  }

  /** onCreateViewHolder: the layout of a known view type; an unknown one gives a null holder. */
  function CreateViewHolder(viewType: int): (layout: Option<Layout>)
    ensures layout.None? <==> viewType != ID_HEADER && viewType != ID_CONTENT
    ensures layout == Some(ContactDetailNameImage) <==> viewType == ID_HEADER
    ensures layout == Some(ContactDetailsNumber) <==> viewType == ID_CONTENT
  {
    if viewType == ID_HEADER then Some(ContactDetailNameImage)
    else if viewType == ID_CONTENT then Some(ContactDetailsNumber)
    else None
  }

  class ContactDetailsAdapter {
    /** The contact shown; None when it was deleted. */
    var contact: Option<Contact>
    /** How many times notifyDataSetChanged was called. */
    var dataSetChanges: nat

    constructor (contact: Option<Contact>)
      ensures this.contact == contact && dataSetChanges == 0
    {
      this.contact := contact;
      dataSetChanges := 0;
    }

    /** setContact replaces the contact and tells the list that all rows changed. */
    method SetContact(contact: Option<Contact>)
      modifies this
      ensures this.contact == contact
      ensures dataSetChanges == old(dataSetChanges) + 1
    {
      this.contact := contact;
      dataSetChanges := dataSetChanges + 1;
    }

    /** getItemCount: the header alone without a contact, else the header and one row per number. */
    function ItemCount(): (n: nat)
      reads this
      ensures n >= 1
      ensures contact.None? ==> n == 1
      ensures contact.Some? ==> n == |contact.value.numbers| + 1
    {
      if contact.None? then 1 else |contact.value.numbers| + 1
    }

    /**
     * onBindViewHolder for a holder of view type `viewType` at `position`: the outline first
     * (so its exceptions come first), then the header's title, or the number at position - 1
     * with its description and a click that starts a call to "tel:" and the raw number. A
     * content row without a contact throws NullPointerException, one past the numbers
     * IndexOutOfBoundsException.
     */
    function BindViewHolder(viewType: int, position: int): (r: Result<Row>)
      reads this
      ensures SetOutline(position, ItemCount()).Throws? ==> r == Throws(SetOutline(position, ItemCount()).exception)
      ensures r.Ok? ==> SetOutline(position, ItemCount()) == Ok(r.value.corners)
      ensures r.Ok? && viewType == ID_HEADER ==>
                r.value.HeaderRow? && r.value.cardClick == NoAction &&
                r.value.title == (if contact.None? then Res("error_contact_deleted") else Raw(contact.value.displayName))
      ensures r.Ok? && viewType == ID_CONTENT ==>
                && contact.Some? && 1 <= position <= |contact.value.numbers|
                && var n := contact.value.numbers[position - 1];
                   r.value == NumberRow(r.value.corners, Raw(n.rawNumber), NumberDescription(n),
                                        StartCallActivity(TELEPHONE_URI_PREFIX + n.rawNumber))
      ensures r.Ok? && viewType != ID_HEADER && viewType != ID_CONTENT ==> r.value.Unbound?
    {
      var outline := SetOutline(position, ItemCount());
      if outline.Throws? then Throws(outline.exception)
      else if viewType == ID_HEADER then
        Ok(HeaderRow(outline.value,
                     if contact.None? then Res("error_contact_deleted") else Raw(contact.value.displayName),
                     NoAction))
      else if viewType == ID_CONTENT then
        if contact.None? then Throws(NullPointerException)
        else if !(0 <= position - 1 < |contact.value.numbers|) then Throws(IndexOutOfBoundsException(""))
        else
          var n := contact.value.numbers[position - 1];
          Ok(NumberRow(outline.value, Raw(n.rawNumber), NumberDescription(n),
                       StartCallActivity(TELEPHONE_URI_PREFIX + n.rawNumber)))
      else Ok(Unbound(outline.value))
    }

    /**
     * Every row the list asks for binds without an exception: the position is inside the item
     * count, so the outline is valid, and a content row's position - 1 indexes a number.
     * The header is at 0, and the content row at p shows number p - 1.
     */
    lemma BoundRowsNeverThrow(position: int)
      requires 0 <= position < ItemCount()
      ensures BindViewHolder(ItemViewType(position), position).Ok?
      ensures position == 0 ==> BindViewHolder(ItemViewType(position), position).value.HeaderRow?
      ensures position > 0 ==>
                && contact.Some?
                && BindViewHolder(ItemViewType(position), position).value.title ==
                   Raw(contact.value.numbers[position - 1].rawNumber)
    {
    }
  }
}
