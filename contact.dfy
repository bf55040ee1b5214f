/**
 * Contact: a phone contact loaded from the contact store. A contact is identified by its
 * lookup key; its phone numbers form a set in which two numbers with the same number and
 * type count as one (the set keeps the first of them). Contacts sort by the kind of their
 * display name's first character, then by the collator.
 */
module Contacts {
  import opened Wrappers
  import opened JavaStrings
  import opened DialBuffers
  import opened PhoneNumbers

  /** The kinds of display name. */
  const TYPE_LETTER: int := 1
  const TYPE_DIGIT: int := 2
  const TYPE_OTHER: int := 3

  /** Character.isLetter and Character.isDigit. */
  datatype CharClasses = CharClasses(isLetter: char -> bool, isDigit: char -> bool)

  /**
   * getNameType: LETTER when the name starts with a letter, DIGIT when it starts with a
   * digit (and not a letter), OTHER for a null or empty name and anything else.
   */
  function NameType(displayName: Option<string>, chars: CharClasses): (t: int)
    ensures t == TYPE_LETTER || t == TYPE_DIGIT || t == TYPE_OTHER
    ensures t == TYPE_LETTER <==> !IsEmpty(displayName) && chars.isLetter(displayName.value[0])
    ensures t == TYPE_DIGIT <==>
              !IsEmpty(displayName) && !chars.isLetter(displayName.value[0]) && chars.isDigit(displayName.value[0])
  {
    if !IsEmpty(displayName) && chars.isLetter(displayName.value[0]) then TYPE_LETTER
    else if !IsEmpty(displayName) && chars.isDigit(displayName.value[0]) then TYPE_DIGIT
    else TYPE_OTHER
  }

  /** Integer.compare. */
  function IntegerCompare(x: int, y: int): (r: int)
    ensures r < 0 <==> x < y
    ensures r == 0 <==> x == y
    ensures r > 0 <==> x > y
  {
    if x < y then -1 else if x == y then 0 else 1
  }

  /**
   * compareTo on display names: by name kind, LETTER before DIGIT before OTHER, and by the
   * collator within one kind.
   */
  function CompareNames(name1: Option<string>, name2: Option<string>, chars: CharClasses,
                        collator: (Option<string>, Option<string>) -> int): (r: int)
    ensures NameType(name1, chars) < NameType(name2, chars) ==> r < 0
    ensures NameType(name1, chars) > NameType(name2, chars) ==> r > 0
    ensures NameType(name1, chars) == NameType(name2, chars) ==> r == collator(name1, name2)
  {
    var type1 := NameType(name1, chars);
    var type2 := NameType(name2, chars);
    if type1 != type2 then IntegerCompare(type1, type2) else collator(name1, name2)
  }

  /** With an antisymmetric collator the contact order is antisymmetric too. */
  lemma CompareNamesAntisymmetric(name1: Option<string>, name2: Option<string>, chars: CharClasses,
                                  collator: (Option<string>, Option<string>) -> int)
    requires (collator(name1, name2) < 0 <==> collator(name2, name1) > 0)
    requires (collator(name1, name2) == 0 <==> collator(name2, name1) == 0)
    ensures CompareNames(name1, name2, chars, collator) < 0 <==> CompareNames(name2, name1, chars, collator) > 0
    ensures CompareNames(name1, name2, chars, collator) == 0 <==> CompareNames(name2, name1, chars, collator) == 0
  {
    var type1 := NameType(name1, chars);
    var type2 := NameType(name2, chars);
    if type1 == type2 {
      assert CompareNames(name1, name2, chars, collator) == collator(name1, name2);
      assert CompareNames(name2, name1, chars, collator) == collator(name2, name1);
    }
  }

  /** A set of phone numbers: no two share number and type. */
  predicate NoDuplicateNumbers(numbers: seq<PhoneNumber>) {
    forall i, j :: 0 <= i < j < |numbers| ==> Key(numbers[i]) != Key(numbers[j])
  }

  /** The set holds a number equal to `p`. */
  predicate HasNumber(numbers: seq<PhoneNumber>, p: PhoneNumber) {
    exists i :: 0 <= i < |numbers| && Key(numbers[i]) == Key(p)
  }

  /** HashSet.add: nothing changes when an equal number is there, otherwise `p` is added. */
  function AddNumber(numbers: seq<PhoneNumber>, p: PhoneNumber): (r: seq<PhoneNumber>)
    ensures HasNumber(numbers, p) ==> r == numbers
    ensures !HasNumber(numbers, p) ==> r == numbers + [p]
    ensures NoDuplicateNumbers(numbers) ==> NoDuplicateNumbers(r)
  {
    if HasNumber(numbers, p) then numbers else numbers + [p]
  }

  /** HashSet.addAll: the numbers of `more` in turn. */
  function AddAll(numbers: seq<PhoneNumber>, more: seq<PhoneNumber>): (r: seq<PhoneNumber>)
    decreases |more|
  {
    if |more| == 0 then numbers else AddAll(AddNumber(numbers, more[0]), more[1..])
  }

  /**
   * addAll is set union: it keeps the set's numbers in front, adds no duplicate, and holds
   * exactly the numbers of either side.
   */
  lemma {:induction false} AddAllIsUnion(numbers: seq<PhoneNumber>, more: seq<PhoneNumber>)
    requires NoDuplicateNumbers(numbers)
    ensures NoDuplicateNumbers(AddAll(numbers, more))
    ensures |AddAll(numbers, more)| >= |numbers| && AddAll(numbers, more)[..|numbers|] == numbers
    ensures forall q :: HasNumber(AddAll(numbers, more), q) <==> HasNumber(numbers, q) || HasNumber(more, q)
    decreases |more|
  {
    if |more| > 0 {
      var next := AddNumber(numbers, more[0]);
      AddAllIsUnion(next, more[1..]);
      forall q
        ensures HasNumber(AddAll(numbers, more), q) <==> HasNumber(numbers, q) || HasNumber(more, q)
      {
        HasNumberAfterAdd(numbers, more[0], q);
        HasNumberOfCons(more, q);
      }
      assert next[..|numbers|] == numbers;
      assert AddAll(numbers, more)[..|next|][..|numbers|] == AddAll(numbers, more)[..|numbers|];
    }
  }

  lemma HasNumberAfterAdd(numbers: seq<PhoneNumber>, p: PhoneNumber, q: PhoneNumber)
    ensures HasNumber(AddNumber(numbers, p), q) <==> HasNumber(numbers, q) || Key(p) == Key(q)
  {
    if !HasNumber(numbers, p) {
      var r := numbers + [p];
      if HasNumber(r, q) {
        var i :| 0 <= i < |r| && Key(r[i]) == Key(q);
        if i < |numbers| {
          assert Key(numbers[i]) == Key(q);
        }
      }
      if HasNumber(numbers, q) {
        var i :| 0 <= i < |numbers| && Key(numbers[i]) == Key(q);
        assert Key(r[i]) == Key(q);
      }
      if Key(p) == Key(q) {
        assert Key(r[|numbers|]) == Key(q);
      }
    } else if Key(p) == Key(q) {
      var i :| 0 <= i < |numbers| && Key(numbers[i]) == Key(p);
      assert Key(numbers[i]) == Key(q);
    }
  }

  lemma HasNumberOfCons(more: seq<PhoneNumber>, q: PhoneNumber)
    requires |more| > 0
    ensures HasNumber(more, q) <==> Key(more[0]) == Key(q) || HasNumber(more[1..], q)
  {
    if HasNumber(more, q) {
      var i :| 0 <= i < |more| && Key(more[i]) == Key(q);
      if i > 0 {
        assert Key(more[1..][i - 1]) == Key(q);
      }
    }
    if HasNumber(more[1..], q) {
      var i :| 0 <= i < |more[1..]| && Key(more[1..][i]) == Key(q);
      assert Key(more[i + 1]) == Key(q);
    }
  }

  /** Adding distinct new numbers one by one appends them in order. */
  lemma {:induction false} AddAllDistinct(numbers: seq<PhoneNumber>, more: seq<PhoneNumber>)
    requires NoDuplicateNumbers(numbers + more)
    ensures AddAll(numbers, more) == numbers + more
    decreases |more|
  {
    if |more| > 0 {
      var all := numbers + more;
      assert !HasNumber(numbers, more[0]) by {
        forall i | 0 <= i < |numbers|
          ensures Key(numbers[i]) != Key(more[0])
        {
          assert numbers[i] == all[i] && more[0] == all[|numbers|];
        }
      }
      assert AddNumber(numbers, more[0]) == numbers + [more[0]];
      assert (numbers + [more[0]]) + more[1..] == all;
      AddAllDistinct(numbers + [more[0]], more[1..]);
    }
  }

  /** One row of the contact store's phone query. */
  datatype ContactRow = ContactRow(
    id: int,
    starred: int,
    pinned: int,
    displayName: Option<string>,
    avatarUri: Option<string>,
    avatarThumbnailUri: Option<string>,
    lookupKey: Option<string>,
    phoneType: int,
    phoneLabel: Option<string>,
    number: string)

  /** The row's phone number, with its type and label. */
  function RowNumber(row: ContactRow): (p: PhoneNumber)
    ensures p.number == row.number && p.numberType == row.phoneType && p.userLabel == row.phoneLabel
  {
    NewLabelledPhoneNumber(row.number, row.phoneType, row.phoneLabel)
  }

  /** The lookup key fromCursor gives a row's contact: the row's key, or its display name when that is null. */
  function KeyOfRow(row: ContactRow): (key: Option<string>)
    ensures row.lookupKey.Some? ==> key == row.lookupKey
    ensures row.lookupKey.None? ==> key == row.displayName
  {
    if row.lookupKey.Some? then row.lookupKey else row.displayName
  }

  /**
   * The fields fromCursor takes from a row, the phone numbers aside: the lookup key, the display
   * name, id, pinned position, avatar URIs, starred when the starred count is positive, and
   * voicemail when the number is the voicemail number.
   */
  ghost predicate ContactFromRow(c: Contact, row: ContactRow, isVoicemailNumber: string -> bool)
    reads c
  {
    c.lookupKey == KeyOfRow(row) && c.displayName == row.displayName && c.id == row.id
    && c.pinnedPosition == row.pinned && c.isStarred == (row.starred > 0)
    && c.isVoiceMail == isVoicemailNumber(row.number)
    && c.avatarUri == row.avatarUri && c.avatarThumbnailUri == row.avatarThumbnailUri
  }

  /** A value written to a Parcel. */
  datatype ParcelValue =
    | PInt(intValue: int)
    | PBool(boolValue: bool)
    | PString(stringValue: Option<string>)
    | PPhoneNumber(phoneNumber: PhoneNumber)
    | PUri(uri: Option<string>)

  /** The phone numbers as written to a parcel, one value each. */
  function PhoneNumberValues(numbers: seq<PhoneNumber>): (values: seq<ParcelValue>)
    ensures |values| == |numbers|
    ensures forall i :: 0 <= i < |numbers| ==> values[i] == PPhoneNumber(numbers[i])
  {
    if |numbers| == 0 then [] else [PPhoneNumber(numbers[0])] + PhoneNumberValues(numbers[1..])
  }

  /** The layout writeToParcel produces and fromParcel reads. */
  predicate IsContactParcel(source: seq<ParcelValue>) {
    |source| >= 4 && source[0].PInt? && source[1].PBool? && source[2].PInt? && source[3].PInt?
    && source[3].intValue >= 0
    && |source| == 4 + source[3].intValue + 5
    && (forall i :: 4 <= i < 4 + source[3].intValue ==> source[i].PPhoneNumber?)
    && var k := 4 + source[3].intValue;
       source[k].PString? && source[k + 1].PUri? && source[k + 2].PUri? && source[k + 3].PString?
       && source[k + 4].PBool?
  }

  /** The phone numbers in a contact parcel, in parcel order. */
  function ParcelNumbers(source: seq<ParcelValue>): (numbers: seq<PhoneNumber>)
    requires IsContactParcel(source)
    ensures |numbers| == source[3].intValue
    ensures forall i :: 0 <= i < |numbers| ==> source[4 + i] == PPhoneNumber(numbers[i])
  {
    seq(source[3].intValue, i requires 0 <= i < source[3].intValue => source[4 + i].phoneNumber)
  }

  class Contact {
    var id: int
    var isStarred: bool
    var pinnedPosition: int
    /** mPhoneNumbers, a HashSet; kept here in insertion order. */
    var phoneNumbers: seq<PhoneNumber>
    var displayName: Option<string>
    /** The thumbnail and photo URIs, as the strings they are parsed from. */
    var avatarThumbnailUri: Option<string>
    var avatarUri: Option<string>
    var lookupKey: Option<string>
    var isVoiceMail: bool

    /** The default constructor: every field at its Java default, no phone numbers. */
    constructor ()
      ensures id == 0 && !isStarred && pinnedPosition == 0 && phoneNumbers == []
      ensures displayName.None? && avatarThumbnailUri.None? && avatarUri.None? && lookupKey.None?
      ensures !isVoiceMail
    {
      id := 0;
      isStarred := false;
      pinnedPosition := 0;
      phoneNumbers := [];
      displayName := None;
      avatarThumbnailUri := None;
      avatarUri := None;
      lookupKey := None;
      isVoiceMail := false;
    }

    /** The phone numbers form a set. */
    ghost predicate Valid()
      reads this
    {
      NoDuplicateNumbers(phoneNumbers)
    }

    /**
     * fromCursor: the row's one phone number, and the row's fields as ContactFromRow
     * describes them. `isVoicemailNumber` is TelecomUtils.isVoicemailNumber.
     */
    static method FromCursor(row: ContactRow, isVoicemailNumber: string -> bool) returns (c: Contact)
      ensures fresh(c) && c.Valid()
      ensures c.phoneNumbers == [RowNumber(row)]
      ensures ContactFromRow(c, row, isVoicemailNumber)
    {
      var number := NewLabelledPhoneNumber(row.number, row.phoneType, row.phoneLabel);
      c := new Contact();
      c.displayName := row.displayName;
      c.phoneNumbers := AddNumber(c.phoneNumbers, number);
      c.isStarred := row.starred > 0;
      c.pinnedPosition := row.pinned;
      c.isVoiceMail := isVoicemailNumber(number.number);
      c.id := row.id;
      c.avatarUri := row.avatarUri;
      c.avatarThumbnailUri := row.avatarThumbnailUri;
      if row.lookupKey.Some? {
        c.lookupKey := row.lookupKey;
      } else {
        c.lookupKey := c.displayName;
      }
    }

    /**
     * equals: false for anything that is not a contact (null); otherwise the lookup keys
     * must be equal, and a null lookup key of this contact makes `equals` throw.
     */
    function Equals(obj: Contact?): (r: Result<bool>)
      reads this, obj
      ensures obj == null ==> r == Ok(false)
      ensures obj != null && lookupKey.None? ==> r == Throws(NullPointerException)
      ensures obj != null && lookupKey.Some? ==> r == Ok(obj.lookupKey == lookupKey)
    {
      if obj == null then Ok(false)
      else if lookupKey.None? then Throws(NullPointerException)
      else Ok(obj.lookupKey == lookupKey)
    }

    /** hashCode: the lookup key's hash; a null key throws. */
    function HashCode(): (r: Result<int>)
      reads this
      ensures lookupKey.None? <==> r.Throws?
      ensures r.Ok? ==> r.value == StringHashCode(lookupKey.value)
    {
      if lookupKey.None? then Throws(NullPointerException) else Ok(StringHashCode(lookupKey.value))
    }

    /** Equal contacts have equal hash codes. */
    lemma EqualsAgreesWithHashCode(other: Contact)
      requires Equals(other) == Ok(true)
      ensures other.HashCode() == HashCode()
    {
      assert lookupKey.Some? && other.lookupKey == lookupKey;
    }

    /** compareTo under the collator. */
    function CompareTo(other: Contact, chars: CharClasses, collator: (Option<string>, Option<string>) -> int): (r: int)
      reads this, other
      ensures NameType(displayName, chars) < NameType(other.displayName, chars) ==> r < 0
      ensures NameType(displayName, chars) > NameType(other.displayName, chars) ==> r > 0
      ensures NameType(displayName, chars) == NameType(other.displayName, chars) ==>
                r == collator(displayName, other.displayName)
    {
      CompareNames(displayName, other.displayName, chars, collator)
    }

    /**
     * merge: with an equal contact its numbers are added to this contact's set; with any
     * other the contact stays as it is. This contact is returned either way, unless equals throws.
     */
    method Merge(other: Contact) returns (r: Result<Contact>)
      requires Valid()
      modifies this`phoneNumbers
      ensures Valid()
      ensures old(Equals(other)).Throws? ==> r.Throws? && phoneNumbers == old(phoneNumbers)
      ensures old(Equals(other)) == Ok(true) ==>
                r == Ok(this) && phoneNumbers == AddAll(old(phoneNumbers), old(other.phoneNumbers))
      ensures old(Equals(other)) == Ok(false) ==> r == Ok(this) && phoneNumbers == old(phoneNumbers)
    {
      var equal := Equals(other);
      if equal.Throws? {
        return Throws(equal.exception);
      }
      if equal.value {
        AddAllIsUnion(phoneNumbers, other.phoneNumbers);
        phoneNumbers := AddAll(phoneNumbers, other.phoneNumbers);
      }
      return Ok(this);
    }

    /**
     * getPhoneNumber: the first stored number, in set order, that PhoneNumberUtils.compare
     * (`compare`) finds equal to `number`, or null when none does.
     */
    method GetPhoneNumber(number: Option<string>, compare: (Option<string>, Option<string>) -> bool)
      returns (r: Option<PhoneNumber>)
      ensures r.None? <==> forall i :: 0 <= i < |phoneNumbers| ==> !compare(Some(phoneNumbers[i].number), number)
      ensures r.Some? ==>
                exists i :: 0 <= i < |phoneNumbers| && phoneNumbers[i] == r.value
                            && compare(Some(phoneNumbers[i].number), number)
                            && forall j :: 0 <= j < i ==> !compare(Some(phoneNumbers[j].number), number)
    {
      var i := 0;
      while i < |phoneNumbers|
        invariant 0 <= i <= |phoneNumbers|
        invariant forall j :: 0 <= j < i ==> !compare(Some(phoneNumbers[j].number), number)
      {
        if compare(Some(phoneNumbers[i].number), number) {
          return Some(phoneNumbers[i]);
        }
        i := i + 1;
      }
      return None;
    }

    /** What writeToParcel writes, in order. */
    function Parcelled(): (values: seq<ParcelValue>)
      reads this
    {
      [PInt(id), PBool(isStarred), PInt(pinnedPosition), PInt(|phoneNumbers|)]
      + PhoneNumberValues(phoneNumbers)
      + [PString(displayName), PUri(avatarThumbnailUri), PUri(avatarUri), PString(lookupKey), PBool(isVoiceMail)]
    }

    /** writeToParcel: the fields in order, the phone numbers preceded by their count. */
    method WriteToParcel(dest: seq<ParcelValue>) returns (out: seq<ParcelValue>)
      ensures out == dest + Parcelled()
      ensures IsContactParcel(Parcelled())
    {
      out := dest + [PInt(id), PBool(isStarred), PInt(pinnedPosition), PInt(|phoneNumbers|)];
      var i := 0;
      while i < |phoneNumbers|
        invariant 0 <= i <= |phoneNumbers|
        invariant out == dest + [PInt(id), PBool(isStarred), PInt(pinnedPosition), PInt(|phoneNumbers|)]
                         + PhoneNumberValues(phoneNumbers[..i])
      {
        assert phoneNumbers[..i + 1] == phoneNumbers[..i] + [phoneNumbers[i]];
        PhoneNumberValuesAppend(phoneNumbers[..i], phoneNumbers[i]);
        out := out + [PPhoneNumber(phoneNumbers[i])];
        i := i + 1;
      }
      assert phoneNumbers[..i] == phoneNumbers;
      out := out + [PString(displayName), PUri(avatarThumbnailUri), PUri(avatarUri), PString(lookupKey), PBool(isVoiceMail)];
      ParcelledLayout();
    }

    lemma ParcelledLayout()
      ensures IsContactParcel(Parcelled())
    {
      var p := Parcelled();
      var n := |phoneNumbers|;
      assert p[3] == PInt(n);
      forall i | 4 <= i < 4 + n
        ensures p[i].PPhoneNumber?
      {
        assert p[i] == PhoneNumberValues(phoneNumbers)[i - 4];
      }
    }

    /**
     * fromParcel: reads the fields back in the order writeToParcel wrote them, the phone
     * numbers into a new set.
     */
    static method FromParcel(source: seq<ParcelValue>) returns (c: Contact)
      requires IsContactParcel(source)
      ensures fresh(c)
      ensures c.id == source[0].intValue && c.isStarred == source[1].boolValue
      ensures c.pinnedPosition == source[2].intValue
      ensures c.phoneNumbers == AddAll([], ParcelNumbers(source))
      ensures var k := 4 + source[3].intValue;
              c.displayName == source[k].stringValue && c.avatarThumbnailUri == source[k + 1].uri
              && c.avatarUri == source[k + 2].uri && c.lookupKey == source[k + 3].stringValue
              && c.isVoiceMail == source[k + 4].boolValue
    {
      c := new Contact();
      c.id := source[0].intValue;
      c.isStarred := source[1].boolValue;
      c.pinnedPosition := source[2].intValue;
      var phoneNumberListLength := source[3].intValue;
      c.phoneNumbers := [];
      ghost var numbers := ParcelNumbers(source);
      var i := 0;
      while i < phoneNumberListLength
        invariant 0 <= i <= phoneNumberListLength
        invariant AddAll(c.phoneNumbers, numbers[i..]) == AddAll([], numbers)
        invariant c.id == source[0].intValue && c.isStarred == source[1].boolValue
        invariant c.pinnedPosition == source[2].intValue
      {
        assert numbers[i..][0] == source[4 + i].phoneNumber;
        assert numbers[i..][1..] == numbers[i + 1..];
        c.phoneNumbers := AddNumber(c.phoneNumbers, source[4 + i].phoneNumber);
        i := i + 1;
      }
      assert numbers[i..] == [];
      var k := 4 + phoneNumberListLength;
      c.displayName := source[k].stringValue;
      c.avatarThumbnailUri := source[k + 1].uri;
      c.avatarUri := source[k + 2].uri;
      c.lookupKey := source[k + 3].stringValue;
      c.isVoiceMail := source[k + 4].boolValue;
    }
  }

  lemma PhoneNumberValuesAppend(numbers: seq<PhoneNumber>, p: PhoneNumber)
    ensures PhoneNumberValues(numbers + [p]) == PhoneNumberValues(numbers) + [PPhoneNumber(p)]
  {
    var l := PhoneNumberValues(numbers + [p]);
    var r := PhoneNumberValues(numbers) + [PPhoneNumber(p)];
    assert |l| == |r|;
    forall i | 0 <= i < |l|
      ensures l[i] == r[i]
    {
      assert (numbers + [p])[i] == if i < |numbers| then numbers[i] else p;
    }
  }

  /** A contact written to a parcel and read back has every field it had. */
  method ParcelRoundTrip(c: Contact) returns (d: Contact)
    requires c.Valid()
    ensures fresh(d)
    ensures d.id == c.id && d.isStarred == c.isStarred && d.pinnedPosition == c.pinnedPosition
    ensures d.phoneNumbers == c.phoneNumbers
    ensures d.displayName == c.displayName && d.avatarThumbnailUri == c.avatarThumbnailUri
    ensures d.avatarUri == c.avatarUri && d.lookupKey == c.lookupKey && d.isVoiceMail == c.isVoiceMail
  {
    var parcel := c.WriteToParcel([]);
    assert parcel == c.Parcelled();
    var n := |c.phoneNumbers|;
    assert ParcelNumbers(parcel) == c.phoneNumbers by {
      forall i | 0 <= i < n
        ensures ParcelNumbers(parcel)[i] == c.phoneNumbers[i]
      {
        assert parcel[4 + i] == PhoneNumberValues(c.phoneNumbers)[i];
      }
    }
    assert [] + c.phoneNumbers == c.phoneNumbers;
    AddAllDistinct([], c.phoneNumbers);
    d := Contact.FromParcel(parcel);
    assert parcel[4 + n..] == [PString(c.displayName), PUri(c.avatarThumbnailUri), PUri(c.avatarUri), PString(c.lookupKey), PBool(c.isVoiceMail)];
    assert parcel[4 + n] == PString(c.displayName);
  }
}
