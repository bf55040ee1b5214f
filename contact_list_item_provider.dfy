/**
 * ContactListItemProvider: the items of the contact list, one per contact, each calling the
 * contact's only number or opening the contact's details when clicked.
 */
module ContactListItemProviders {
  import opened Wrappers
  import opened JavaStrings
  import opened Contacts

  /** What a click on a contact item does. */
  datatype ContactAction =
    | PlaceCall(number: string)
    | ShowContactDetail(contactId: int, lookupKey: Option<string>)

  /**
   * A ContactListItem: the contact its click handlers capture, and the title set from the
   * contact's display name when the item was made.
   */
  datatype ContactListItem = ContactListItem(contact: Contact, title: Option<string>)

  /**
   * The item's click, read when it happens: it calls the contact's number when the contact has
   * exactly one, and otherwise shows the details of the contact's id and lookup key.
   */
  function OnItemClick(item: ContactListItem): (a: ContactAction)
    reads item.contact
    ensures a.PlaceCall? <==> |item.contact.phoneNumbers| == 1
    ensures a.PlaceCall? ==> a.number == item.contact.phoneNumbers[0].number
    ensures !a.PlaceCall? ==> a == ShowContactDetail(item.contact.id, item.contact.lookupKey)
  {
    if |item.contact.phoneNumbers| == 1 then PlaceCall(item.contact.phoneNumbers[0].number)
    else ShowContactDetail(item.contact.id, item.contact.lookupKey)
  }

  /** The supplemental icon always shows the contact's details. */
  function OnSupplementalIconClick(item: ContactListItem): (a: ContactAction)
    reads item.contact
    ensures a.ShowContactDetail? && a.contactId == item.contact.id && a.lookupKey == item.contact.lookupKey
  {
    ShowContactDetail(item.contact.id, item.contact.lookupKey)
  }

  class ContactListItemProvider {
    var listItems: seq<ContactListItem>

    constructor ()
      ensures listItems == []
    {
      listItems := [];
    }

    /**
     * setContacts: the old items are dropped and one item per contact is made, in the order of
     * the contacts, titled with the contact's display name.
     */
    method SetContacts(contacts: seq<Contact>)
      modifies this`listItems
      ensures |listItems| == |contacts|
      ensures forall i :: 0 <= i < |contacts| ==>
                listItems[i].contact == contacts[i] && listItems[i].title == contacts[i].displayName
    {
      listItems := [];
      for i := 0 to |contacts|
        invariant |listItems| == i
        invariant forall k :: 0 <= k < i ==>
                    listItems[k].contact == contacts[k] && listItems[k].title == contacts[k].displayName
      {
        var contact := contacts[i];
        listItems := listItems + [ContactListItem(contact, contact.displayName)];
      }
    }

    /** get: the item at the position; outside the list, IndexOutOfBoundsException. */
    function Get(position: int): (r: Result<ContactListItem>)
      reads this
      ensures r.Ok? <==> 0 <= position < |listItems|
      ensures r.Ok? ==> r.value == listItems[position]
      ensures r.Throws? ==> r.exception.IndexOutOfBoundsException?
    {
      if 0 <= position < |listItems| then Ok(listItems[position])
      else Throws(IndexOutOfBoundsException(""))
    }

    /** size: the number of items. */
    function Size(): (n: nat)
      reads this
      ensures n == |listItems|
    {
      |listItems|
    }
  }

  /**
   * After setContacts, the size is the number of contacts, and clicking the item at p acts on
   * the p-th contact: it calls that contact's only number or shows that contact's details.
   */
  method ClickAfterSetContacts(provider: ContactListItemProvider, contacts: seq<Contact>, p: int)
    returns (action: Result<ContactAction>)
    modifies provider
    ensures provider.Size() == |contacts|
    ensures action.Ok? <==> 0 <= p < |contacts|
    ensures action.Ok? ==>
              (action.value.PlaceCall? <==> |contacts[p].phoneNumbers| == 1) &&
              (action.value.PlaceCall? ==> action.value.number == contacts[p].phoneNumbers[0].number) &&
              (!action.value.PlaceCall? ==> action.value == ShowContactDetail(contacts[p].id, contacts[p].lookupKey))
  {
    provider.SetContacts(contacts);
    var item := provider.Get(p);
    if item.Ok? {
      action := Ok(OnItemClick(item.value));
    } else {
      action := Throws(item.exception);
    }
  }
}
