/**
 * ContactResultsViewModel: contact search. The search query is a LiveData; the results are
 * the phone book's contacts for the lookup keys the contact-filter query returns, and an
 * empty list whenever the query is empty or the phone book has no contacts.
 */
module ContactResultsViewModels {
  import opened Wrappers
  import opened DialBuffers
  import opened Contacts

  /** ContactsContract values the query is built from. */
  const CONTENT_FILTER_URI := "content://com.android.contacts/contacts/filter"
  const ID_COLUMN := "_id"
  const LOOKUP_KEY_COLUMN := "lookup"
  const HAS_PHONE_NUMBER_COLUMN := "has_phone_number"

  /** A QueryParam: the URI, projection, selection, selection arguments and sort order. */
  datatype QueryParam = QueryParam(
    uri: string,
    projection: seq<string>,
    selection: string,
    selectionArgs: Option<seq<string>>,
    orderBy: Option<string>)

  /**
   * SearchQueryParamProvider.getQueryParam: the filter URI with the encoded query appended as
   * a path segment, the id and lookup-key columns, and only contacts that have a phone number.
   * `encode` is Uri.encode.
   */
  function GetQueryParam(searchQuery: Option<string>, encode: Option<string> -> string): (q: QueryParam)
    ensures q.uri == CONTENT_FILTER_URI + "/" + encode(searchQuery)
    ensures q.projection == [ID_COLUMN, LOOKUP_KEY_COLUMN]
    ensures q.selection == HAS_PHONE_NUMBER_COLUMN + "!=0"
    ensures q.selectionArgs.None? && q.orderBy.None?
  {
    QueryParam(CONTENT_FILTER_URI + "/" + encode(searchQuery), [ID_COLUMN, LOOKUP_KEY_COLUMN],
               HAS_PHONE_NUMBER_COLUMN + "!=0", None, None)
  }

  /**
   * The contacts onQueryFinished collects: for each cursor row's lookup key, in cursor order,
   * the phone book contact with that key, skipping keys it does not know. `lookupContactByKey`
   * is InMemoryPhoneBook.lookupContactByKey.
   */
  function Collected(keys: seq<Option<string>>, lookupContactByKey: Option<string> -> Option<Contact>): seq<Contact>
    decreases |keys|
  {
    if |keys| == 0 then []
    else
      var contact := lookupContactByKey(keys[|keys| - 1]);
      Collected(keys[..|keys| - 1], lookupContactByKey) + if contact.Some? then [contact.value] else []
  }

  /** The results hold the contact of every key that resolves, and nothing else. */
  lemma {:induction false} CollectedMeaning(keys: seq<Option<string>>, lookupContactByKey: Option<string> -> Option<Contact>)
    ensures |Collected(keys, lookupContactByKey)| <= |keys|
    ensures forall c :: c in Collected(keys, lookupContactByKey) ==>
              exists k :: k in keys && lookupContactByKey(k) == Some(c)
    ensures forall k :: k in keys && lookupContactByKey(k).Some? ==>
              lookupContactByKey(k).value in Collected(keys, lookupContactByKey)
    decreases |keys|
  {
    if |keys| > 0 {
      var prefix := keys[..|keys| - 1];
      var last := keys[|keys| - 1];
      CollectedMeaning(prefix, lookupContactByKey);
      assert keys == prefix + [last];
      forall c | c in Collected(keys, lookupContactByKey)
        ensures exists k :: k in keys && lookupContactByKey(k) == Some(c)
      {
        if c in Collected(prefix, lookupContactByKey) {
          var k :| k in prefix && lookupContactByKey(k) == Some(c);
          assert k in keys;
        } else {
          assert lookupContactByKey(last) == Some(c);
        }
      }
      forall k | k in keys && lookupContactByKey(k).Some?
        ensures lookupContactByKey(k).value in Collected(keys, lookupContactByKey)
      {
        if k != last {
          assert k in prefix;
        }
      }
    }
  }

  class ContactResultsViewModel {
    /** The search query LiveData's value, null until one is set. */
    var searchQuery: Option<string>
    /** The search results LiveData's value, null until one is set. */
    var results: Option<seq<Contact>>
    /** Whether the contact-filter query is running. */
    var queryRunning: bool

    constructor ()
      ensures searchQuery.None? && results.None? && !queryRunning
    {
      searchQuery := None;
      results := None;
      queryRunning := false;
    }

    /**
     * setSearchQuery: nothing when the query equals the current one (TextUtils.equals);
     * otherwise the query is set and the results LiveData's observer reacts to it at once.
     */
    method SetSearchQuery(searchQuery: Option<string>)
      modifies this
      ensures searchQuery == old(this.searchQuery) ==>
                this.searchQuery == old(this.searchQuery) && results == old(results) && queryRunning == old(queryRunning)
      ensures searchQuery != old(this.searchQuery) ==> this.searchQuery == searchQuery
      ensures searchQuery != old(this.searchQuery) && IsEmpty(searchQuery) ==> results == Some([]) && !queryRunning
      ensures searchQuery != old(this.searchQuery) && !IsEmpty(searchQuery) ==> results == old(results) && queryRunning
    {
      if searchQuery == this.searchQuery {
        return;
      }
      this.searchQuery := searchQuery;
      OnSearchQueryChanged(searchQuery);
    }

    /** onSearchQueryChanged: an empty query stops the search and empties the results; any other starts it. */
    method OnSearchQueryChanged(searchQuery: Option<string>)
      modifies this`results, this`queryRunning
      ensures IsEmpty(searchQuery) ==> results == Some([]) && !queryRunning
      ensures !IsEmpty(searchQuery) ==> results == old(results) && queryRunning
    {
      if IsEmpty(searchQuery) {
        queryRunning := false;
        results := Some([]);
      } else {
        queryRunning := true;
      }
    }

    /** onContactsChange: a null or empty phone book stops the search and empties the results; any other starts it. */
    method OnContactsChange(contactList: Option<seq<Contact>>)
      modifies this`results, this`queryRunning
      ensures contactList.None? || contactList.value == [] ==> results == Some([]) && !queryRunning
      ensures contactList.Some? && contactList.value != [] ==> results == old(results) && queryRunning
    {
      if contactList.None? || |contactList.value| == 0 {
        queryRunning := false;
        results := Some([]);
      } else {
        queryRunning := true;
      }
    }

    /**
     * onQueryFinished: no cursor gives empty results; otherwise the results are the phone
     * book contacts of the cursor's lookup keys, in cursor order.
     */
    method OnQueryFinished(cursor: Option<seq<Option<string>>>, lookupContactByKey: Option<string> -> Option<Contact>)
      modifies this`results
      ensures cursor.None? ==> results == Some([])
      ensures cursor.Some? ==> results == Some(Collected(cursor.value, lookupContactByKey))
    {
      if cursor.None? {
        results := Some([]);
        return;
      }
      var keys := cursor.value;
      var contacts: seq<Contact> := [];
      var i := 0;
      while i < |keys|
        invariant 0 <= i <= |keys|
        invariant contacts == Collected(keys[..i], lookupContactByKey)
      {
        assert keys[..i + 1][..i] == keys[..i];
        var contact := lookupContactByKey(keys[i]);
        if contact.Some? {
          contacts := contacts + [contact.value];
        }
        i := i + 1;
      }
      assert keys[..i] == keys;
      results := Some(contacts);
    }
  }
}
