/**
 * InMemoryPhoneBook: the contact list held in memory. When the contact query delivers its
 * rows, they are grouped into one contact per lookup key, in the order the keys first
 * appear, each contact holding the union of its rows' phone numbers. Looking a number up
 * gives the first contact, in list order, with a matching number. One phone book at a time
 * is reachable through init, get and tearDown.
 */
module InMemoryPhoneBooks {
  import opened Wrappers
  import opened PhoneNumbers
  import opened Contacts

  /** A contact as the grouping sees it: its key, the row it was made from and its numbers. */
  datatype Entry = Entry(lookupKey: Option<string>, first: ContactRow, numbers: seq<PhoneNumber>)

  /** LinkedHashMap lookup: where the entry with this key is, if there is one. */
  function FindKey(entries: seq<Entry>, key: Option<string>): (r: Option<nat>)
    ensures r.None? <==> forall j :: 0 <= j < |entries| ==> entries[j].lookupKey != key
    ensures r.Some? ==> r.value < |entries| && entries[r.value].lookupKey == key
  {
    if |entries| == 0 then None
    else if entries[0].lookupKey == key then Some(0)
    else match FindKey(entries[1..], key)
      case None => None
      case Some(j) => Some(j + 1)
  }

  /**
   * One step of onDataLoaded: a row with a new key adds a contact at the end; a row with a
   * known key adds its number to that contact, and throws when the key is null, because
   * merge's equals dereferences it.
   */
  function AddRow(entries: seq<Entry>, row: ContactRow): (r: Result<seq<Entry>>)
  {
    var key := KeyOfRow(row);
    match FindKey(entries, key)
    case None => Ok(WithNewKey(entries, row))
    case Some(j) => if key.None? then Throws(NullPointerException) else Ok(WithKnownKey(entries, row, j))
  }

  /** onDataLoaded's grouping of the rows, in cursor order. */
  function Group(rows: seq<ContactRow>): (r: Result<seq<Entry>>)
    decreases |rows|
  {
    if |rows| == 0 then Ok([])
    else
      var prefix := Group(rows[..|rows| - 1]);
      if prefix.Throws? then prefix else AddRow(prefix.value, rows[|rows| - 1])
  }

  /** The first row with this key. */
  function FirstRowWithKey(rows: seq<ContactRow>, key: Option<string>): (r: Option<nat>)
    ensures r.None? <==> forall i :: 0 <= i < |rows| ==> KeyOfRow(rows[i]) != key
    ensures r.Some? ==> r.value < |rows| && KeyOfRow(rows[r.value]) == key
                        && forall i :: 0 <= i < r.value ==> KeyOfRow(rows[i]) != key
    decreases |rows|
  {
    if |rows| == 0 then None
    else
      var prefix := FirstRowWithKey(rows[..|rows| - 1], key);
      if prefix.Some? then prefix
      else if KeyOfRow(rows[|rows| - 1]) == key then Some(|rows| - 1)
      else None
  }

  /** Some row with this key has a number equal to `q`. */
  ghost predicate RowsHaveNumber(rows: seq<ContactRow>, key: Option<string>, q: PhoneNumber) {
    exists i :: 0 <= i < |rows| && KeyOfRow(rows[i]) == key && Key(RowNumber(rows[i])) == Key(q)
  }

  /** Two rows whose contacts have a null lookup key. */
  ghost predicate NullKeyTwice(rows: seq<ContactRow>) {
    exists i, k :: 0 <= i < k < |rows| && KeyOfRow(rows[i]).None? && KeyOfRow(rows[k]).None?
  }

  /** One contact per key. */
  ghost predicate KeysDistinct(entries: seq<Entry>) {
    forall j, k :: 0 <= j < k < |entries| ==> entries[j].lookupKey != entries[k].lookupKey
  }

  /** Every row's key has a contact. */
  ghost predicate CoversRows(rows: seq<ContactRow>, entries: seq<Entry>) {
    forall i :: 0 <= i < |rows| ==> FindKey(entries, KeyOfRow(rows[i])).Some?
  }

  /** Every contact is made from the first row with its key. */
  ghost predicate FromFirstRows(rows: seq<ContactRow>, entries: seq<Entry>) {
    forall j :: 0 <= j < |entries| ==>
      FirstRowWithKey(rows, entries[j].lookupKey).Some?
      && rows[FirstRowWithKey(rows, entries[j].lookupKey).value] == entries[j].first
  }

  /** The contacts come in the order their keys first appear. */
  ghost predicate InFirstAppearanceOrder(rows: seq<ContactRow>, entries: seq<Entry>)
    requires FromFirstRows(rows, entries)
  {
    forall j, k :: 0 <= j < k < |entries| ==>
      FirstRowWithKey(rows, entries[j].lookupKey).value < FirstRowWithKey(rows, entries[k].lookupKey).value
  }

  /** A contact's numbers are a set, and exactly the numbers of the rows with its key. */
  ghost predicate NumbersAreUnion(rows: seq<ContactRow>, entries: seq<Entry>) {
    forall j :: 0 <= j < |entries| ==>
      NoDuplicateNumbers(entries[j].numbers)
      && forall q :: HasNumber(entries[j].numbers, q) <==> RowsHaveNumber(rows, entries[j].lookupKey, q)
  }

  /** What onDataLoaded promises of its contact list. */
  ghost predicate GroupsRows(rows: seq<ContactRow>, entries: seq<Entry>) {
    KeysDistinct(entries) && CoversRows(rows, entries) && FromFirstRows(rows, entries)
    && InFirstAppearanceOrder(rows, entries) && NumbersAreUnion(rows, entries)
  }

  lemma FirstRowWithKeyAppend(rows: seq<ContactRow>, row: ContactRow, key: Option<string>)
    ensures FirstRowWithKey(rows + [row], key) ==
              if FirstRowWithKey(rows, key).Some? then FirstRowWithKey(rows, key)
              else if KeyOfRow(row) == key then Some(|rows|) else None
  {
    assert (rows + [row])[..|rows|] == rows;
  }

  lemma RowsHaveNumberAppend(rows: seq<ContactRow>, row: ContactRow, key: Option<string>, q: PhoneNumber)
    ensures RowsHaveNumber(rows + [row], key, q) <==>
              RowsHaveNumber(rows, key, q) || (KeyOfRow(row) == key && Key(RowNumber(row)) == Key(q))
  {
    var all := rows + [row];
    if RowsHaveNumber(all, key, q) {
      var i :| 0 <= i < |all| && KeyOfRow(all[i]) == key && Key(RowNumber(all[i])) == Key(q);
      if i < |rows| {
        assert all[i] == rows[i];
      }
    }
    if RowsHaveNumber(rows, key, q) {
      var i :| 0 <= i < |rows| && KeyOfRow(rows[i]) == key && Key(RowNumber(rows[i])) == Key(q);
      assert all[i] == rows[i];
    }
    if KeyOfRow(row) == key && Key(RowNumber(row)) == Key(q) {
      assert all[|rows|] == row;
    }
  }

  /** A row with a key no contact has is the first row with that key. */
  lemma NewKeyIsNew(rows: seq<ContactRow>, entries: seq<Entry>, key: Option<string>)
    requires CoversRows(rows, entries)
    requires FindKey(entries, key).None?
    ensures FirstRowWithKey(rows, key).None?
    ensures forall q :: !RowsHaveNumber(rows, key, q)
  {
    forall i | 0 <= i < |rows|
      ensures KeyOfRow(rows[i]) != key
    {
      assert FindKey(entries, KeyOfRow(rows[i])).Some?;
    }
  }

  /** The entries after a row with a new key. */
  function WithNewKey(entries: seq<Entry>, row: ContactRow): seq<Entry> {
    entries + [Entry(KeyOfRow(row), row, [RowNumber(row)])]
  }

  /** The entries after a row with the known key of entry `j0`. */
  function WithKnownKey(entries: seq<Entry>, row: ContactRow, j0: nat): seq<Entry>
    requires j0 < |entries|
  {
    entries[j0 := entries[j0].(numbers := AddNumber(entries[j0].numbers, RowNumber(row)))]
  }

  /** First rows of keys that already have a row do not move when a row is appended. */
  lemma FirstRowsStay(rows: seq<ContactRow>, entries: seq<Entry>, row: ContactRow)
    requires FromFirstRows(rows, entries)
    ensures forall j :: 0 <= j < |entries| ==>
              FirstRowWithKey(rows + [row], entries[j].lookupKey) == FirstRowWithKey(rows, entries[j].lookupKey)
  {
    forall j | 0 <= j < |entries|
      ensures FirstRowWithKey(rows + [row], entries[j].lookupKey) == FirstRowWithKey(rows, entries[j].lookupKey)
    {
      FirstRowWithKeyAppend(rows, row, entries[j].lookupKey);
    }
  }

  lemma NewKeyCovers(rows: seq<ContactRow>, entries: seq<Entry>, row: ContactRow)
    requires CoversRows(rows, entries)
    ensures CoversRows(rows + [row], WithNewKey(entries, row))
  {
    var rows' := rows + [row];
    var entries' := WithNewKey(entries, row);
    forall i | 0 <= i < |rows'|
      ensures FindKey(entries', KeyOfRow(rows'[i])).Some?
    {
      if i < |rows| {
        assert rows'[i] == rows[i];
        var j := FindKey(entries, KeyOfRow(rows[i])).value;
        assert entries'[j].lookupKey == KeyOfRow(rows'[i]);
      } else {
        assert entries'[|entries|].lookupKey == KeyOfRow(rows'[i]);
      }
    }
  }

  lemma NewKeyFirstRows(rows: seq<ContactRow>, entries: seq<Entry>, row: ContactRow)
    requires CoversRows(rows, entries) && FromFirstRows(rows, entries)
    requires FindKey(entries, KeyOfRow(row)).None?
    ensures FromFirstRows(rows + [row], WithNewKey(entries, row))
    ensures forall j :: 0 <= j < |entries| ==>
              FirstRowWithKey(rows + [row], entries[j].lookupKey).value < |rows|
    ensures FirstRowWithKey(rows + [row], KeyOfRow(row)) == Some(|rows|)
  {
    var rows' := rows + [row];
    var entries' := WithNewKey(entries, row);
    NewKeyIsNew(rows, entries, KeyOfRow(row));
    FirstRowWithKeyAppend(rows, row, KeyOfRow(row));
    FirstRowsStay(rows, entries, row);
    assert rows'[|rows|] == row;
    forall j | 0 <= j < |entries|
      ensures FirstRowWithKey(rows', entries'[j].lookupKey).Some?
      ensures rows'[FirstRowWithKey(rows', entries'[j].lookupKey).value] == entries'[j].first
    {
      assert entries'[j] == entries[j];
      assert rows'[FirstRowWithKey(rows, entries[j].lookupKey).value] == rows[FirstRowWithKey(rows, entries[j].lookupKey).value];
    }
  }

  lemma NewKeyOrder(rows: seq<ContactRow>, entries: seq<Entry>, row: ContactRow)
    requires FromFirstRows(rows, entries) && InFirstAppearanceOrder(rows, entries)
    requires FromFirstRows(rows + [row], WithNewKey(entries, row))
    requires forall j :: 0 <= j < |entries| ==>
               FirstRowWithKey(rows + [row], entries[j].lookupKey) == FirstRowWithKey(rows, entries[j].lookupKey)
    requires FirstRowWithKey(rows + [row], KeyOfRow(row)) == Some(|rows|)
    ensures InFirstAppearanceOrder(rows + [row], WithNewKey(entries, row))
  {
    NewKeyPositions(rows, entries, row);
    var rows', entries' := rows + [row], WithNewKey(entries, row);
    forall j, k | 0 <= j < k < |entries'|
      ensures FirstRowWithKey(rows', entries'[j].lookupKey).value < FirstRowWithKey(rows', entries'[k].lookupKey).value
    {
      var pj := FirstRowWithKey(rows, entries[j].lookupKey).value;
      if k < |entries| {
        assert pj < FirstRowWithKey(rows, entries[k].lookupKey).value;
      } else {
        assert pj < |rows|;
      }
    }
  }

  /** Where the first rows of the keys are after a row with a new key is appended. */
  lemma NewKeyPositions(rows: seq<ContactRow>, entries: seq<Entry>, row: ContactRow)
    requires FromFirstRows(rows, entries)
    requires forall j :: 0 <= j < |entries| ==>
               FirstRowWithKey(rows + [row], entries[j].lookupKey) == FirstRowWithKey(rows, entries[j].lookupKey)
    requires FirstRowWithKey(rows + [row], KeyOfRow(row)) == Some(|rows|)
    ensures forall j :: 0 <= j < |entries| ==>
              FirstRowWithKey(rows + [row], WithNewKey(entries, row)[j].lookupKey).Some? &&
              FirstRowWithKey(rows + [row], WithNewKey(entries, row)[j].lookupKey).value < |rows|
    ensures forall j :: 0 <= j < |entries| ==>
              FirstRowWithKey(rows + [row], WithNewKey(entries, row)[j].lookupKey) == FirstRowWithKey(rows, entries[j].lookupKey)
    ensures FirstRowWithKey(rows + [row], WithNewKey(entries, row)[|entries|].lookupKey) == Some(|rows|)
  {
    var entries' := WithNewKey(entries, row);
    forall j | 0 <= j < |entries| ensures entries'[j] == entries[j] {
    }
    assert entries'[|entries|].lookupKey == KeyOfRow(row);
  }

  lemma NewKeyNumbers(rows: seq<ContactRow>, entries: seq<Entry>, row: ContactRow)
    requires CoversRows(rows, entries) && NumbersAreUnion(rows, entries)
    requires FindKey(entries, KeyOfRow(row)).None?
    ensures NumbersAreUnion(rows + [row], WithNewKey(entries, row))
  {
    var rows' := rows + [row];
    var entries' := WithNewKey(entries, row);
    NewKeyIsNew(rows, entries, KeyOfRow(row));
    forall j, q | 0 <= j < |entries'|
      ensures HasNumber(entries'[j].numbers, q) <==> RowsHaveNumber(rows', entries'[j].lookupKey, q)
    {
      RowsHaveNumberAppend(rows, row, entries'[j].lookupKey, q);
      if j == |entries| {
        if Key(RowNumber(row)) == Key(q) {
          assert entries'[j].numbers[0] == RowNumber(row);
        }
      } else {
        assert entries'[j] == entries[j];
      }
    }
  }

  /** Adding a row with a new key keeps GroupsRows. */
  lemma AddNewKey(rows: seq<ContactRow>, entries: seq<Entry>, row: ContactRow)
    requires GroupsRows(rows, entries)
    requires FindKey(entries, KeyOfRow(row)).None?
    ensures GroupsRows(rows + [row], WithNewKey(entries, row))
  {
    assert KeysDistinct(WithNewKey(entries, row));
    NewKeyCovers(rows, entries, row);
    NewKeyFirstRows(rows, entries, row);
    FirstRowsStay(rows, entries, row);
    NewKeyOrder(rows, entries, row);
    NewKeyNumbers(rows, entries, row);
  }

  lemma KnownKeyCovers(rows: seq<ContactRow>, entries: seq<Entry>, row: ContactRow, j0: nat)
    requires CoversRows(rows, entries)
    requires FindKey(entries, KeyOfRow(row)) == Some(j0)
    ensures CoversRows(rows + [row], WithKnownKey(entries, row, j0))
  {
    var rows' := rows + [row];
    var entries' := WithKnownKey(entries, row, j0);
    forall i | 0 <= i < |rows'|
      ensures FindKey(entries', KeyOfRow(rows'[i])).Some?
    {
      if i < |rows| {
        assert rows'[i] == rows[i];
        var j := FindKey(entries, KeyOfRow(rows[i])).value;
        assert entries'[j].lookupKey == KeyOfRow(rows'[i]);
      } else {
        assert entries'[j0].lookupKey == KeyOfRow(rows'[i]);
      }
    }
  }

  lemma KnownKeyFirstRows(rows: seq<ContactRow>, entries: seq<Entry>, row: ContactRow, j0: nat)
    requires FromFirstRows(rows, entries) && InFirstAppearanceOrder(rows, entries)
    requires j0 < |entries|
    ensures FromFirstRows(rows + [row], WithKnownKey(entries, row, j0))
    ensures InFirstAppearanceOrder(rows + [row], WithKnownKey(entries, row, j0))
  {
    var rows' := rows + [row];
    var entries' := WithKnownKey(entries, row, j0);
    FirstRowsStay(rows, entries, row);
    forall j | 0 <= j < |entries|
      ensures FirstRowWithKey(rows', entries'[j].lookupKey).Some?
      ensures rows'[FirstRowWithKey(rows', entries'[j].lookupKey).value] == entries'[j].first
    {
      assert entries'[j].lookupKey == entries[j].lookupKey && entries'[j].first == entries[j].first;
      assert rows'[FirstRowWithKey(rows, entries[j].lookupKey).value] == rows[FirstRowWithKey(rows, entries[j].lookupKey).value];
    }
  }

  lemma KnownKeyNumbers(rows: seq<ContactRow>, entries: seq<Entry>, row: ContactRow, j0: nat)
    requires KeysDistinct(entries) && NumbersAreUnion(rows, entries)
    requires FindKey(entries, KeyOfRow(row)) == Some(j0)
    ensures NumbersAreUnion(rows + [row], WithKnownKey(entries, row, j0))
  {
    var rows' := rows + [row];
    var entries' := WithKnownKey(entries, row, j0);
    forall j | 0 <= j < |entries'|
      ensures NoDuplicateNumbers(entries'[j].numbers)
      ensures forall q :: HasNumber(entries'[j].numbers, q) <==> RowsHaveNumber(rows', entries'[j].lookupKey, q)
    {
      forall q
        ensures HasNumber(entries'[j].numbers, q) <==> RowsHaveNumber(rows', entries'[j].lookupKey, q)
      {
        RowsHaveNumberAppend(rows, row, entries'[j].lookupKey, q);
        if j == j0 {
          HasNumberAfterAdd(entries[j0].numbers, RowNumber(row), q);
        } else {
          assert entries'[j] == entries[j];
        }
      }
    }
  }

  /** Adding a row with a known key keeps GroupsRows. */
  lemma AddKnownKey(rows: seq<ContactRow>, entries: seq<Entry>, row: ContactRow, j0: nat)
    requires GroupsRows(rows, entries)
    requires FindKey(entries, KeyOfRow(row)) == Some(j0)
    ensures GroupsRows(rows + [row], WithKnownKey(entries, row, j0))
  {
    assert KeysDistinct(WithKnownKey(entries, row, j0));
    KnownKeyCovers(rows, entries, row, j0);
    KnownKeyFirstRows(rows, entries, row, j0);
    KnownKeyNumbers(rows, entries, row, j0);
  }

  /**
   * The grouping behind onDataLoaded: when it does not throw, it has one contact per
   * distinct key, made from the key's first row, in first-appearance order, holding the
   * union of the key's numbers.
   */
  lemma {:induction false} GroupMeaning(rows: seq<ContactRow>)
    requires Group(rows).Ok?
    ensures GroupsRows(rows, Group(rows).value)
    decreases |rows|
  {
    if |rows| > 0 {
      var prefix := rows[..|rows| - 1];
      var row := rows[|rows| - 1];
      assert rows == prefix + [row];
      GroupMeaning(prefix);
      var entries := Group(prefix).value;
      match FindKey(entries, KeyOfRow(row))
      case None => AddNewKey(prefix, entries, row);
      case Some(j) => AddKnownKey(prefix, entries, row, j);
    }
  }

  /** The grouping throws exactly when two rows both give their contact a null lookup key. */
  lemma {:induction false} GroupThrows(rows: seq<ContactRow>)
    ensures Group(rows).Throws? <==> NullKeyTwice(rows)
    decreases |rows|
  {
    if |rows| > 0 {
      var prefix := rows[..|rows| - 1];
      var row := rows[|rows| - 1];
      GroupThrows(prefix);
      NullKeyTwiceAppend(prefix, row);
      assert rows == prefix + [row];
      if Group(prefix).Ok? {
        var entries := Group(prefix).value;
        assert Group(rows) == AddRow(entries, row);
        EntriesCoverRows(prefix);
        if KeyOfRow(row).None? {
          if FindKey(entries, None).Some? {
            var j := FindKey(entries, None).value;
            var i := FirstRowWithKey(prefix, entries[j].lookupKey).value;
            assert KeyOfRow(prefix[i]).None?;
          } else {
            NewKeyIsNew(prefix, entries, None);
          }
        }
      }
    }
  }

  /** Every row's key has a contact, and every contact's key a row. */
  lemma EntriesCoverRows(rows: seq<ContactRow>)
    requires Group(rows).Ok?
    ensures CoversRows(rows, Group(rows).value)
    ensures forall j :: 0 <= j < |Group(rows).value| ==> FirstRowWithKey(rows, Group(rows).value[j].lookupKey).Some?
  {
    GroupMeaning(rows);
  }

  lemma NullKeyTwiceAppend(rows: seq<ContactRow>, row: ContactRow)
    ensures NullKeyTwice(rows + [row]) <==>
              NullKeyTwice(rows)
              || (KeyOfRow(row).None? && FirstRowWithKey(rows, None).Some?)
  {
    var all := rows + [row];
    if NullKeyTwice(all) {
      var i, k :| 0 <= i < k < |all| && KeyOfRow(all[i]).None? && KeyOfRow(all[k]).None?;
      assert all[i] == rows[i];
      if k < |rows| {
        assert all[k] == rows[k];
      } else {
        assert FirstRowWithKey(rows, None).Some?;
      }
    }
    if NullKeyTwice(rows) {
      var i, k :| 0 <= i < k < |rows| && KeyOfRow(rows[i]).None? && KeyOfRow(rows[k]).None?;
      assert all[i] == rows[i] && all[k] == rows[k];
    }
    if KeyOfRow(row).None? && FirstRowWithKey(rows, None).Some? {
      var i := FirstRowWithKey(rows, None).value;
      assert all[i] == rows[i] && all[|rows|] == row;
    }
  }

  lemma GroupStep(rows: seq<ContactRow>, i: nat)
    requires i < |rows|
    ensures Group(rows[..i + 1]) ==
              if Group(rows[..i]).Throws? then Group(rows[..i]) else AddRow(Group(rows[..i]).value, rows[i])
  {
    assert rows[..i + 1][..i] == rows[..i];
  }

  /** Once a prefix of the rows throws, the whole grouping does. */
  lemma {:induction false} ThrowsPersist(rows: seq<ContactRow>, i: nat)
    requires i <= |rows| && Group(rows[..i]).Throws?
    ensures Group(rows).Throws?
    decreases |rows| - i
  {
    if i == |rows| {
      assert rows[..i] == rows;
    } else {
      GroupStep(rows, i);
      ThrowsPersist(rows, i + 1);
    }
  }

  /** A contact list object holds the grouping: each contact has its entry's key, row fields and numbers. */
  ghost predicate Represents(contacts: seq<Contact>, entries: seq<Entry>, isVoicemailNumber: string -> bool)
    reads set c | c in contacts
  {
    |contacts| == |entries|
    && forall j :: 0 <= j < |contacts| ==>
         contacts[j].lookupKey == entries[j].lookupKey && contacts[j].phoneNumbers == entries[j].numbers
         && ContactFromRow(contacts[j], entries[j].first, isVoicemailNumber)
  }

  /** The phone book has no number the query matches. */
  ghost predicate NoNumberMatches(c: Contact, phoneNumber: Option<string>, compare: (Option<string>, Option<string>) -> bool)
    reads c
  {
    forall k :: 0 <= k < |c.phoneNumbers| ==> !compare(phoneNumber, Some(c.phoneNumbers[k].number))
  }

  class InMemoryPhoneBook {
    var isLoaded: bool
    var contacts: seq<Contact>
    /** The value of the contacts LiveData: None until the first load. */
    var contactsLiveData: Option<seq<Contact>>
    /** Whether the contact query is running; the query itself is not part of this model. */
    var queryRunning: bool
    const isVoicemailNumber: string -> bool

    /** The constructor followed by onInit: not loaded, no contacts, the query started. */
    constructor (isVoicemailNumber: string -> bool)
      ensures !isLoaded && contacts == [] && contactsLiveData.None? && queryRunning
      ensures this.isVoicemailNumber == isVoicemailNumber
    {
      isLoaded := false;
      contacts := [];
      contactsLiveData := None;
      queryRunning := true;
      this.isVoicemailNumber := isVoicemailNumber;
    }

    /**
     * lookupContactEntry: null while loading; otherwise the first contact, in list order,
     * with a number PhoneNumberUtils.compare (`compare`) matches, or null when there is none.
     */
    method LookupContactEntry(phoneNumber: Option<string>, compare: (Option<string>, Option<string>) -> bool)
      returns (r: Option<Contact>)
      ensures !isLoaded ==> r.None?
      ensures isLoaded && r.None? ==> forall i :: 0 <= i < |contacts| ==> NoNumberMatches(contacts[i], phoneNumber, compare)
      ensures r.Some? ==>
                exists i :: 0 <= i < |contacts| && contacts[i] == r.value
                            && !NoNumberMatches(contacts[i], phoneNumber, compare)
                            && forall i' :: 0 <= i' < i ==> NoNumberMatches(contacts[i'], phoneNumber, compare)
    {
      if !isLoaded {
        return None;
      }
      var i := 0;
      while i < |contacts|
        invariant 0 <= i <= |contacts|
        invariant forall i' :: 0 <= i' < i ==> NoNumberMatches(contacts[i'], phoneNumber, compare)
      {
        var contact := contacts[i];
        var numbers := contact.phoneNumbers;
        var k := 0;
        while k < |numbers|
          invariant 0 <= k <= |numbers|
          invariant forall k' :: 0 <= k' < k ==> !compare(phoneNumber, Some(numbers[k'].number))
        {
          if compare(phoneNumber, Some(numbers[k].number)) {
            return Some(contact);
          }
          k := k + 1;
        }
        i := i + 1;
      }
      return None;
    }

    /** Index of the contact with this key in the list being built, as LinkedHashMap.get finds it. */
    static method FindContact(result: seq<Contact>, key: Option<string>) returns (r: Option<nat>)
      ensures r.None? ==> forall j :: 0 <= j < |result| ==> result[j].lookupKey != key
      ensures r.Some? ==> r.value < |result| && result[r.value].lookupKey == key
    {
      var j := 0;
      while j < |result|
        invariant 0 <= j <= |result|
        invariant forall j' :: 0 <= j' < j ==> result[j'].lookupKey != key
      {
        if result[j].lookupKey == key {
          return Some(j);
        }
        j := j + 1;
      }
      return None;
    }

    /**
     * One row of onDataLoaded: the row's contact is merged into the contact with its key, or
     * added at the end when there is none yet.
     */
    static method AddRowTo(result: seq<Contact>, row: ContactRow, isVoicemailNumber: string -> bool,
                           ghost rows: seq<ContactRow>)
      returns (result': seq<Contact>, r: Result<()>)
      requires Group(rows).Ok? && Represents(result, Group(rows).value, isVoicemailNumber)
      modifies set c | c in result
      ensures r.Ok? <==> Group(rows + [row]).Ok?
      ensures r.Ok? ==> Represents(result', Group(rows + [row]).value, isVoicemailNumber)
      ensures r.Ok? ==> forall j :: 0 <= j < |result'| ==> result'[j] in result || fresh(result'[j])
    {
      ghost var entries := Group(rows).value;
      assert (rows + [row])[..|rows|] == rows && (rows + [row])[|rows|] == row;
      assert Group(rows + [row]) == AddRow(entries, row);
      EntriesAreSets(rows);
      var contact := Contact.FromCursor(row, isVoicemailNumber);
      var found := FindContact(result, contact.lookupKey);
      if found.None? {
        assert FindKey(entries, KeyOfRow(row)).None?;
        RepresentsNewKey(result, entries, contact, row, isVoicemailNumber);
        return result + [contact], Ok(());
      }
      var j0 := found.value;
      assert FindKey(entries, KeyOfRow(row)) == Some(j0) by {
        assert entries[j0].lookupKey == KeyOfRow(row);
      }
      result' := result;
      r := MergeInto(result, j0, contact, entries, row, isVoicemailNumber);
    }

    /** The merge branch of onDataLoaded: the row's contact merged into the one with its key. */
    static method MergeInto(result: seq<Contact>, j0: nat, contact: Contact, ghost entries: seq<Entry>,
                            ghost row: ContactRow, isVoicemailNumber: string -> bool)
      returns (r: Result<()>)
      requires Represents(result, entries, isVoicemailNumber) && KeysDistinct(entries)
      requires forall j :: 0 <= j < |entries| ==> NoDuplicateNumbers(entries[j].numbers)
      requires FindKey(entries, KeyOfRow(row)) == Some(j0)
      requires contact.lookupKey == KeyOfRow(row) && contact.phoneNumbers == [RowNumber(row)]
      requires contact !in result
      modifies result[j0]
      ensures r.Throws? <==> KeyOfRow(row).None?
      ensures r.Ok? ==> Represents(result, WithKnownKey(entries, row, j0), isVoicemailNumber)
    {
      forall j | 0 <= j < |result| && j != j0
        ensures result[j] != result[j0]
      {
        assert entries[j].lookupKey != entries[j0].lookupKey;
      }
      AddAllOne(result[j0].phoneNumbers, RowNumber(row));
      var merged := result[j0].Merge(contact);
      if merged.Throws? {
        return Throws(merged.exception);
      }
      ghost var entries' := WithKnownKey(entries, row, j0);
      forall j | 0 <= j < |result|
        ensures result[j].lookupKey == entries'[j].lookupKey && result[j].phoneNumbers == entries'[j].numbers
        ensures ContactFromRow(result[j], entries'[j].first, isVoicemailNumber)
      {
        if j != j0 {
          assert entries'[j] == entries[j];
        }
      }
      return Ok(());
    }

    /** The loop of onDataLoaded: the rows' contacts, grouped by key, as new objects. */
    static method GroupContacts(rows: seq<ContactRow>, isVoicemailNumber: string -> bool)
      returns (result: seq<Contact>, r: Result<()>)
      ensures r.Ok? <==> Group(rows).Ok?
      ensures r.Ok? ==> Represents(result, Group(rows).value, isVoicemailNumber)
                        && forall j :: 0 <= j < |result| ==> fresh(result[j])
    {
      result := [];
      for i := 0 to |rows|
        invariant Group(rows[..i]).Ok?
        invariant Represents(result, Group(rows[..i]).value, isVoicemailNumber)
        invariant forall j :: 0 <= j < |result| ==> fresh(result[j])
      {
        ghost var prefix := rows[..i];
        assert rows[..i + 1] == prefix + [rows[i]];
        var result', step := AddRowTo(result, rows[i], isVoicemailNumber, prefix);
        if step.Throws? {
          ThrowsPersist(rows, i + 1);
          return result', step;
        }
        result := result';
      }
      assert rows[..|rows|] == rows;
      return result, Ok(());
    }

    /**
     * onDataLoaded: groups the rows into new contacts as Group describes, then marks the
     * phone book loaded and replaces the whole list, which the LiveData then holds. A merge
     * that throws leaves the phone book as it was.
     */
    method OnDataLoaded(rows: seq<ContactRow>) returns (r: Result<()>)
      modifies this`isLoaded, this`contacts, this`contactsLiveData
      ensures r.Ok? <==> Group(rows).Ok?
      ensures r.Throws? ==> isLoaded == old(isLoaded) && contacts == old(contacts)
                            && contactsLiveData == old(contactsLiveData)
      ensures r.Ok? ==> isLoaded && contactsLiveData == Some(contacts)
                        && Represents(contacts, Group(rows).value, isVoicemailNumber)
                        && forall j :: 0 <= j < |contacts| ==> fresh(contacts[j])
    {
      var result;
      result, r := GroupContacts(rows, isVoicemailNumber);
      if r.Throws? {
        return;
      }
      isLoaded := true;
      contacts := result;
      contactsLiveData := Some(contacts);
    }
  }

  /** The contacts of a grouping have distinct keys, and their numbers are sets. */
  lemma EntriesAreSets(rows: seq<ContactRow>)
    requires Group(rows).Ok?
    ensures KeysDistinct(Group(rows).value)
    ensures forall j :: 0 <= j < |Group(rows).value| ==> NoDuplicateNumbers(Group(rows).value[j].numbers)
  {
    GroupMeaning(rows);
  }

  lemma RepresentsNewKey(result: seq<Contact>, entries: seq<Entry>, contact: Contact, row: ContactRow,
                         isVoicemailNumber: string -> bool)
    requires Represents(result, entries, isVoicemailNumber)
    requires contact.phoneNumbers == [RowNumber(row)] && ContactFromRow(contact, row, isVoicemailNumber)
    ensures Represents(result + [contact], WithNewKey(entries, row), isVoicemailNumber)
  {
    var entries' := WithNewKey(entries, row);
    var result' := result + [contact];
    forall j | 0 <= j < |result'|
      ensures result'[j].lookupKey == entries'[j].lookupKey && result'[j].phoneNumbers == entries'[j].numbers
      ensures ContactFromRow(result'[j], entries'[j].first, isVoicemailNumber)
    {
      if j < |result| {
        assert result'[j] == result[j] && entries'[j] == entries[j];
      }
    }
  }

  lemma AddAllOne(numbers: seq<PhoneNumber>, p: PhoneNumber)
    ensures AddAll(numbers, [p]) == AddNumber(numbers, p)
  {
    assert [p][1..] == [];
  }

  /**
   * The globally reachable phone book: init makes one when there is none and throws
   * otherwise, get throws when there is none, tearDown stops the query and forgets it.
   */
  const REINIT_MESSAGE := "Call teardown before reinitialized PhoneBook"
  const GET_BEFORE_INIT_MESSAGE := "Call init before get InMemoryPhoneBook"

  class PhoneBookSingleton {
    var instance: InMemoryPhoneBook?

    constructor ()
      ensures instance == null
    {
      instance := null;
    }

    /** init: a new phone book with its query started, or IllegalStateException when one exists. */
    method Init(isVoicemailNumber: string -> bool) returns (r: Result<InMemoryPhoneBook>)
      modifies this
      ensures old(instance) == null ==>
                r.Ok? && r.value == instance && fresh(instance) && instance.queryRunning
                && !instance.isLoaded && instance.contacts == []
      ensures old(instance) != null ==> r == Throws(IllegalStateException(REINIT_MESSAGE)) && instance == old(instance)
    {
      if instance == null {
        instance := new InMemoryPhoneBook(isVoicemailNumber);
      } else {
        return Throws(IllegalStateException(REINIT_MESSAGE));
      }
      r := Get();
    }

    /** get: the phone book, or IllegalStateException before init. */
    method Get() returns (r: Result<InMemoryPhoneBook>)
      ensures instance == null <==> r == Throws(IllegalStateException(GET_BEFORE_INIT_MESSAGE))
      ensures instance != null ==> r == Ok(instance)
    {
      if instance != null {
        return Ok(instance);
      } else {
        return Throws(IllegalStateException(GET_BEFORE_INIT_MESSAGE));
      }
    }

    /** tearDown: stops the query and forgets the phone book; with none, it throws. */
    method TearDown() returns (r: Result<()>)
      modifies this, instance
      ensures old(instance) == null ==> r == Throws(NullPointerException) && instance == null
      ensures old(instance) != null ==> r.Ok? && instance == null && !old(instance).queryRunning
    {
      if instance == null {
        return Throws(NullPointerException);
      }
      instance.queryRunning := false;
      instance := null;
      return Ok(());
    }
  }
}
