/**
 * ContactDetailsFragment (the older top-level page): a contact's name and photo in a header
 * row and one row per phone number, each row a card whose background is rounded by its place
 * in the list. The phone numbers arrive from a second query after the contact's own row.
 */
module LegacyContactDetails {
  import opened Wrappers
  import opened ListItemOutlines
  import opened JavaStrings

  const DETAILS_QUERY_ID: int := 31415
  const PHONE_QUERY_ID: int := 42

  const ID_HEADER: int := 1
  const ID_CONTENT: int := 2

  // ContactsContract.CommonDataKinds.Phone.TYPE_* (public Android SDK values)
  const TYPE_HOME: int := 1
  const TYPE_MOBILE: int := 2
  const TYPE_WORK: int := 3

  /** The contact query onCreateLoader starts: the contact URI from the fragment's arguments. */
  datatype ContactQuery = ContactQuery(contactUri: string)

  /** A row of the phone query: the number's type and its number. */
  datatype PhoneRow = PhoneRow(phoneType: int, number: string)

  /** A phone-number row's data: the type's label (a string resource) and the formatted number. */
  datatype PhoneEntry = PhoneEntry(typeLabel: string, number: string)

  /** The card backgrounds setBackground chooses from. */
  datatype Background = RoundedTopBottom | RoundedTop | RoundedBottom | PlainCard

  /** What a click on a number row asks of the call manager. */
  datatype Effect = SafePlaceCall(number: string, bluetoothCall: bool)

  /** A bound row; `Unbound` is a holder of an unknown view type, which is left as it was. */
  datatype Row =
    | HeaderRow(name: Option<string>, background: Background)
    | NumberRow(title: string, text: string, onClick: Effect, background: Background)
    | Unbound

  /** onCreateLoader: the contact query for DETAILS_QUERY_ID and null for any other id. */
  function OnCreateLoader(id: int, contactUri: string): (q: Option<ContactQuery>)
    ensures q.Some? <==> id == DETAILS_QUERY_ID
    ensures q.Some? ==> q.value.contactUri == contactUri
  {
    if id != DETAILS_QUERY_ID then None else Some(ContactQuery(contactUri))
  }

  /** The label of a phone type: home, work and mobile by name, every other type "other". */
  function PhoneTypeLabel(phoneType: int): (res: string)
    ensures phoneType == TYPE_HOME <==> res == "type_home"
    ensures phoneType == TYPE_WORK <==> res == "type_work"
    ensures phoneType == TYPE_MOBILE <==> res == "type_mobile"
    ensures phoneType !in {TYPE_HOME, TYPE_WORK, TYPE_MOBILE} <==> res == "type_other"
  {
    if phoneType == TYPE_HOME then "type_home"
    else if phoneType == TYPE_WORK then "type_work"
    else if phoneType == TYPE_MOBILE then "type_mobile"
    else "type_other"
  }

  /** The entry a phone row becomes; `format` is TelecomUtils.getFormattedNumber. */
  function EntryOf(row: PhoneRow, format: string -> string): PhoneEntry
  {
    PhoneEntry(PhoneTypeLabel(row.phoneType), format(row.number))
  }

  /** The entries of phone rows, one per row and in row order. */
  function EntriesOf(rows: seq<PhoneRow>, format: string -> string): (entries: seq<PhoneEntry>)
    ensures |entries| == |rows|
    ensures forall i :: 0 <= i < |rows| ==> entries[i] == EntryOf(rows[i], format)
  {
    seq(|rows|, i requires 0 <= i < |rows| => EntryOf(rows[i], format))
  }

  /** The positions notifyItemInserted reports while n numbers are appended to `start` numbers. */
  function InsertedPositions(start: nat, n: nat): (positions: seq<int>)
    ensures |positions| == n
    ensures forall i :: 0 <= i < n ==> positions[i] == start + i + 1
  {
    seq(n, i requires 0 <= i < n => start + i + 1)
  }

  /**
   * setBackground: the only card is rounded top and bottom, the first of several at the top,
   * the last of several at the bottom, and the middle ones not at all.
   */
  function CardBackground(itemCount: int, adapterPosition: int): (b: Background)
    ensures itemCount == 1 ==> b == RoundedTopBottom
    ensures itemCount != 1 && adapterPosition == 0 ==> b == RoundedTop
    ensures itemCount != 1 && adapterPosition != 0 && adapterPosition == itemCount - 1 ==> b == RoundedBottom
    ensures itemCount != 1 && adapterPosition != 0 && adapterPosition != itemCount - 1 ==> b == PlainCard
  {
    if itemCount == 1 then RoundedTopBottom
    else if adapterPosition == 0 then RoundedTop
    else if adapterPosition == itemCount - 1 then RoundedBottom
    else PlainCard
  }

  /** The corners a background rounds. */
  function CornersOf(b: Background): Corners
  {
    match b
    case RoundedTopBottom => Corners(true, true)
    case RoundedTop => Corners(true, false)
    case RoundedBottom => Corners(false, true)
    case PlainCard => Corners(false, false)
  }

  /**
   * For every position inside the list the background rounds the same corners as the newer
   * ListItemOutlineResolver: the top exactly at position 0, the bottom exactly at the end.
   */
  lemma BackgroundAgreesWithOutline(itemCount: int, adapterPosition: int)
    requires 0 <= adapterPosition < itemCount
    ensures SetOutline(adapterPosition, itemCount) == Ok(CornersOf(CardBackground(itemCount, adapterPosition)))
    ensures CornersOf(CardBackground(itemCount, adapterPosition)).roundedTop <==> adapterPosition == 0
    ensures CornersOf(CardBackground(itemCount, adapterPosition)).roundedBottom <==> adapterPosition == itemCount - 1
  {
    var b := CardBackground(itemCount, adapterPosition);
    var o := SetOutline(adapterPosition, itemCount);
    if itemCount == 1 {
      assert b == RoundedTopBottom;
    } else if adapterPosition == 0 {
      assert b == RoundedTop;
    } else if adapterPosition == itemCount - 1 {
      assert b == RoundedBottom;
    } else {
      assert b == PlainCard;
    }
  }

  /** getItemViewType: the header at position 0, content everywhere else. */
  function ItemViewType(position: int): (t: int)
    ensures t == ID_HEADER <==> position == 0
    ensures t == ID_CONTENT <==> position != 0
  {
    if position == 0 then ID_HEADER else ID_CONTENT
  }

  /** The inner ContactDetailsAdapter: the contact row's fields and the loaded phone numbers. */
  class ContactDetailsAdapter {
    const contactId: Option<string>
    const contactName: Option<string>
    /** Whether the constructor started the phone query (the contact has phone numbers). */
    const phoneQueryStarted: bool
    /** TelecomUtils.getFormattedNumber. */
    const format: string -> string
    var phoneNumbers: seq<PhoneEntry>
    /** How many rows were reported inserted, one per loaded number. */
    var insertedNotifications: seq<int>
    /** How many times notifyDataSetChanged was called. */
    var dataSetChanges: nat

    /**
     * The constructor reads the contact's row; it starts the phone query only when the row's
     * has-phone-number column is positive, so a contact without numbers keeps just the header.
     */
    constructor (contactId: Option<string>, contactName: Option<string>, hasPhoneNumber: int, format: string -> string)
      ensures this.contactId == contactId && this.contactName == contactName && this.format == format
      ensures phoneQueryStarted <==> hasPhoneNumber > 0
      ensures phoneNumbers == [] && insertedNotifications == [] && dataSetChanges == 0
      ensures ItemCount() == 1
    {
      this.contactId := contactId;
      this.contactName := contactName;
      this.format := format;
      phoneQueryStarted := hasPhoneNumber > 0;
      phoneNumbers := [];
      insertedNotifications := [];
      dataSetChanges := 0;
    }

    /** getItemCount: the header row and one row per loaded number; setMaxItems is ignored. */
    function ItemCount(): (n: nat)
      reads this
      ensures n == |phoneNumbers| + 1
    {
      |phoneNumbers| + 1
    }

    /**
     * The phone query's onLoadFinished: every row, in order, is labelled by its type, formatted
     * and appended, and each append reports the list's new size as an inserted position; the
     * whole data set is then reported changed. Only the phone query the constructor started
     * calls it.
     */
    method OnPhoneLoadFinished(rows: seq<PhoneRow>)
      requires phoneQueryStarted
      modifies this`phoneNumbers, this`insertedNotifications, this`dataSetChanges
      ensures phoneNumbers == old(phoneNumbers) + EntriesOf(rows, format)
      ensures insertedNotifications == old(insertedNotifications) + InsertedPositions(|old(phoneNumbers)|, |rows|)
      ensures dataSetChanges == old(dataSetChanges) + 1
    {
      var i := 0;
      while i < |rows|
        invariant 0 <= i <= |rows|
        invariant phoneNumbers == old(phoneNumbers) + EntriesOf(rows[..i], format)
        invariant insertedNotifications == old(insertedNotifications) + InsertedPositions(|old(phoneNumbers)|, i)
        invariant dataSetChanges == old(dataSetChanges)
      {
        var row := rows[i];
        assert EntriesOf(rows[..i + 1], format) == EntriesOf(rows[..i], format) + [EntryOf(row, format)];
        assert InsertedPositions(|old(phoneNumbers)|, i + 1) ==
               InsertedPositions(|old(phoneNumbers)|, i) + [|old(phoneNumbers)| + i + 1];
        phoneNumbers := phoneNumbers + [EntryOf(row, format)];
        insertedNotifications := insertedNotifications + [|phoneNumbers|];
        i := i + 1;
      }
      assert rows[..i] == rows;
      dataSetChanges := dataSetChanges + 1;
    }

    /**
     * onBindViewHolder with setBackground, the holder's adapter position taken to be the bound
     * position: the header shows the contact's name, a number row the type and the number at
     * position - 1 and calls that number on a click; an unknown view type returns before the
     * background is set. A content row past the numbers throws IndexOutOfBoundsException.
     */
    function BindViewHolder(viewType: int, position: int): (r: Result<Row>)
      reads this
      ensures viewType == ID_HEADER ==> r == Ok(HeaderRow(contactName, CardBackground(ItemCount(), position)))
      ensures viewType == ID_CONTENT && 1 <= position <= |phoneNumbers| ==>
                var data := phoneNumbers[position - 1];
                r == Ok(NumberRow(data.typeLabel, data.number, SafePlaceCall(data.number, false),
                                  CardBackground(ItemCount(), position)))
      ensures viewType == ID_CONTENT && !(1 <= position <= |phoneNumbers|) ==>
                r.Throws? && r.exception.IndexOutOfBoundsException?
      ensures viewType != ID_HEADER && viewType != ID_CONTENT ==> r == Ok(Unbound)
    {
      if viewType == ID_HEADER then Ok(HeaderRow(contactName, CardBackground(ItemCount(), position)))
      else if viewType == ID_CONTENT then
        if 0 <= position - 1 < |phoneNumbers| then
          var data := phoneNumbers[position - 1];
          Ok(NumberRow(data.typeLabel, data.number, SafePlaceCall(data.number, false),
                       CardBackground(ItemCount(), position)))
        else Throws(IndexOutOfBoundsException(""))
      else Ok(Unbound)
    }

    /**
     * Every row the list shows binds: the header at 0 and, at every later position p, the
     * number p - 1, which a click then calls without the Bluetooth flag.
     */
    lemma ShownRowsBind(position: int)
      requires 0 <= position < ItemCount()
      ensures BindViewHolder(ItemViewType(position), position).Ok?
      ensures position > 0 ==>
                BindViewHolder(ItemViewType(position), position).value.onClick ==
                SafePlaceCall(phoneNumbers[position - 1].number, false)
    {
    }
  }
}
