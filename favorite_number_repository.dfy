/**
 * FavoriteNumberRepository: the favourite phone numbers stored in the favourites database.
 * A favourite remembers a contact (id and lookup key), a number and the phone account it was
 * saved under. The repository adds and removes favourites, and converts them to contacts,
 * bringing back up to date the favourites whose contact id or lookup key changed.
 */
module FavoriteNumberRepositories {
  import opened Wrappers
  import opened I18nPhoneNumberWrappers

  /** A FavoriteNumberEntity; the number is the decrypted CipherWrapper value, null when absent. */
  datatype FavoriteNumber = FavoriteNumber(
    contactId: int,
    contactLookupKey: Option<string>,
    phoneNumber: Option<string>,
    accountName: Option<string>,
    accountType: Option<string>)

  /** What the repository reads of a contact: its id and lookup key. */
  datatype ContactIdentity = ContactIdentity(id: int, lookupKey: Option<string>)

  /** What the repository reads of a contact's phone number. */
  datatype AccountNumber = AccountNumber(
    rawNumber: string,
    accountName: Option<string>,
    accountType: Option<string>,
    i18nPhoneNumberWrapper: I18nPhoneNumberWrapper)

  /** The favourites DAO calls, in the order the repository makes them. */
  datatype DaoOp =
    | Insert(entity: FavoriteNumber)
    | Delete(entity: FavoriteNumber)
    | UpdateAll(entities: seq<FavoriteNumber>)
    | Cleanup(deviceAddresses: seq<string>)

  /**
   * numberMatches: never for a favourite without a number; otherwise the accounts must agree
   * and the stored number's wrapper must equal the phone number's.
   */
  function NumberMatches(favorite: FavoriteNumber, phoneNumber: AccountNumber, util: PhoneNumberUtil): (b: bool)
    ensures favorite.phoneNumber.None? ==> !b
    ensures favorite.accountName != phoneNumber.accountName || favorite.accountType != phoneNumber.accountType ==> !b
    ensures favorite.phoneNumber.Some? && favorite.accountName == phoneNumber.accountName
            && favorite.accountType == phoneNumber.accountType ==>
              (b <==> Equals(NewInstance(favorite.phoneNumber.value, util), Some(phoneNumber.i18nPhoneNumberWrapper), util))
  {
    if favorite.phoneNumber.None? then false
    else if favorite.accountName != phoneNumber.accountName || favorite.accountType != phoneNumber.accountType then false
    else Equals(NewInstance(favorite.phoneNumber.value, util), Some(phoneNumber.i18nPhoneNumberWrapper), util)
  }

  /** matches: the lookup keys must be equal (TextUtils.equals), and then numberMatches decides. */
  function Matches(favorite: FavoriteNumber, contact: ContactIdentity, phoneNumber: AccountNumber, util: PhoneNumberUtil): (b: bool)
    ensures favorite.contactLookupKey != contact.lookupKey ==> !b
    ensures favorite.contactLookupKey == contact.lookupKey ==> (b <==> NumberMatches(favorite, phoneNumber, util))
  {
    if favorite.contactLookupKey == contact.lookupKey then NumberMatches(favorite, phoneNumber, util) else false
  }

  /** The DAO deletions removeFromFavorite makes: one per matching favourite, in list order. */
  function RemovalOps(favorites: seq<FavoriteNumber>, contact: ContactIdentity, phoneNumber: AccountNumber,
                      util: PhoneNumberUtil): seq<DaoOp>
    decreases |favorites|
  {
    if |favorites| == 0 then []
    else
      var last := favorites[|favorites| - 1];
      RemovalOps(favorites[..|favorites| - 1], contact, phoneNumber, util)
      + if Matches(last, contact, phoneNumber, util) then [Delete(last)] else []
  }

  /** removeFromFavorite deletes every matching favourite and nothing else. */
  lemma {:induction false} RemovalOpsDeleteExactlyMatches(favorites: seq<FavoriteNumber>, contact: ContactIdentity,
                                                         phoneNumber: AccountNumber, util: PhoneNumberUtil)
    ensures forall op :: op in RemovalOps(favorites, contact, phoneNumber, util) ==>
              op.Delete? && op.entity in favorites && Matches(op.entity, contact, phoneNumber, util)
    ensures forall f :: f in favorites && Matches(f, contact, phoneNumber, util) ==>
              Delete(f) in RemovalOps(favorites, contact, phoneNumber, util)
    decreases |favorites|
  {
    if |favorites| > 0 {
      var prefix := favorites[..|favorites| - 1];
      var last := favorites[|favorites| - 1];
      RemovalOpsDeleteExactlyMatches(prefix, contact, phoneNumber, util);
      assert favorites == prefix + [last];
      forall f | f in favorites && Matches(f, contact, phoneNumber, util)
        ensures Delete(f) in RemovalOps(favorites, contact, phoneNumber, util)
      {
        if f != last {
          assert f in prefix;
        }
      }
    }
  }

  /** The favourite after conversion: brought up to the resolved contact's id and key when it differs. */
  function Refreshed(favorite: FavoriteNumber, contact: Option<ContactIdentity>): (r: FavoriteNumber)
    ensures contact.None? ==> r == favorite
    ensures contact.Some? ==> r.contactId == contact.value.id && r.contactLookupKey == contact.value.lookupKey
    ensures r.phoneNumber == favorite.phoneNumber && r.accountName == favorite.accountName
            && r.accountType == favorite.accountType
  {
    if contact.Some? && OutOfDate(favorite, contact.value) then
      favorite.(contactLookupKey := contact.value.lookupKey, contactId := contact.value.id)
    else favorite
  }

  /** The favourite's id or lookup key differs from the contact's. */
  predicate OutOfDate(favorite: FavoriteNumber, contact: ContactIdentity) {
    favorite.contactId != contact.id || favorite.contactLookupKey != contact.lookupKey
  }

  /** The contacts convertToContacts posts: those the favourites resolve to, in favourite order. */
  function ResolvedContacts(favorites: seq<FavoriteNumber>, lookup: FavoriteNumber -> Option<ContactIdentity>)
    : seq<ContactIdentity>
    decreases |favorites|
  {
    if |favorites| == 0 then []
    else
      var last := favorites[|favorites| - 1];
      ResolvedContacts(favorites[..|favorites| - 1], lookup)
      + if lookup(last).Some? then [lookup(last).value] else []
  }

  /** The favourites convertToContacts writes back: the resolved ones that were out of date, refreshed. */
  function OutOfDateList(favorites: seq<FavoriteNumber>, lookup: FavoriteNumber -> Option<ContactIdentity>)
    : seq<FavoriteNumber>
    decreases |favorites|
  {
    if |favorites| == 0 then []
    else
      var last := favorites[|favorites| - 1];
      OutOfDateList(favorites[..|favorites| - 1], lookup)
      + if lookup(last).Some? && OutOfDate(last, lookup(last).value) then [Refreshed(last, lookup(last))] else []
  }

  /** Every favourite written back is up to date with the contact it resolved to. */
  lemma {:induction false} OutOfDateListIsRefreshed(favorites: seq<FavoriteNumber>,
                                                    lookup: FavoriteNumber -> Option<ContactIdentity>)
    ensures forall f :: f in OutOfDateList(favorites, lookup) ==>
              exists g :: g in favorites && lookup(g).Some? && OutOfDate(g, lookup(g).value) && f == Refreshed(g, lookup(g))
    ensures |OutOfDateList(favorites, lookup)| <= |ResolvedContacts(favorites, lookup)|
    decreases |favorites|
  {
    if |favorites| > 0 {
      var prefix := favorites[..|favorites| - 1];
      var last := favorites[|favorites| - 1];
      OutOfDateListIsRefreshed(prefix, lookup);
      forall f | f in OutOfDateList(favorites, lookup)
        ensures exists g :: g in favorites && lookup(g).Some? && OutOfDate(g, lookup(g).value) && f == Refreshed(g, lookup(g))
      {
        if f in OutOfDateList(prefix, lookup) {
          var g :| g in prefix && lookup(g).Some? && OutOfDate(g, lookup(g).value) && f == Refreshed(g, lookup(g));
          assert g in favorites;
        } else {
          assert f == Refreshed(last, lookup(last));
        }
      }
    }
  }

  /**
   * When the lookup does not depend on the id and key it refreshes, converting the refreshed
   * favourites again resolves the same contacts and finds nothing out of date.
   */
  lemma {:induction false} ConvertTwiceWritesNothing(favorites: seq<FavoriteNumber>,
                                                     lookup: FavoriteNumber -> Option<ContactIdentity>)
    requires forall f :: f in favorites ==> lookup(Refreshed(f, lookup(f))) == lookup(f)
    ensures OutOfDateList(RefreshAll(favorites, lookup), lookup) == []
    ensures ResolvedContacts(RefreshAll(favorites, lookup), lookup) == ResolvedContacts(favorites, lookup)
    decreases |favorites|
  {
    if |favorites| > 0 {
      var prefix := favorites[..|favorites| - 1];
      var last := favorites[|favorites| - 1];
      var refreshed := RefreshAll(favorites, lookup);
      assert refreshed[..|refreshed| - 1] == RefreshAll(prefix, lookup);
      assert refreshed[|refreshed| - 1] == Refreshed(last, lookup(last));
      ConvertTwiceWritesNothing(prefix, lookup);
    }
  }

  /** Every favourite, refreshed. */
  function RefreshAll(favorites: seq<FavoriteNumber>, lookup: FavoriteNumber -> Option<ContactIdentity>)
    : (r: seq<FavoriteNumber>)
    ensures |r| == |favorites|
    ensures forall i :: 0 <= i < |favorites| ==> r[i] == Refreshed(favorites[i], lookup(favorites[i]))
  {
    seq(|favorites|, i requires 0 <= i < |favorites| => Refreshed(favorites[i], lookup(favorites[i])))
  }

  /** A paired Bluetooth device; only its address is read. */
  datatype BluetoothDevice = BluetoothDevice(address: string)

  class FavoriteNumberRepository {
    /** The value of the favourites LiveData, null before the database has delivered it. */
    var favoriteNumbers: Option<seq<FavoriteNumber>>
    /** The DAO calls made so far; each runs on the repository's executor, taken here as immediate. */
    var daoLog: seq<DaoOp>
    const util: PhoneNumberUtil

    constructor (favoriteNumbers: Option<seq<FavoriteNumber>>, util: PhoneNumberUtil)
      ensures this.favoriteNumbers == favoriteNumbers && daoLog == [] && this.util == util
    {
      this.favoriteNumbers := favoriteNumbers;
      daoLog := [];
      this.util := util;
    }

    /** addToFavorite: inserts a favourite holding the contact's id and key and the number's raw value and account. */
    method AddToFavorite(contact: ContactIdentity, phoneNumber: AccountNumber)
      modifies this`daoLog
      ensures daoLog == old(daoLog) + [Insert(FavoriteNumber(contact.id, contact.lookupKey, Some(phoneNumber.rawNumber),
                                                       phoneNumber.accountName, phoneNumber.accountType))]
    {
      var favoriteNumber := FavoriteNumber(contact.id, contact.lookupKey, Some(phoneNumber.rawNumber),
                                           phoneNumber.accountName, phoneNumber.accountType);
      daoLog := daoLog + [Insert(favoriteNumber)];
    }

    /** removeFromFavorite: nothing before the list is loaded, else deletes each matching favourite. */
    method RemoveFromFavorite(contact: ContactIdentity, phoneNumber: AccountNumber)
      modifies this`daoLog
      ensures favoriteNumbers.None? ==> daoLog == old(daoLog)
      ensures favoriteNumbers.Some? ==> daoLog == old(daoLog) + RemovalOps(favoriteNumbers.value, contact, phoneNumber, util)
    {
      if favoriteNumbers.None? {
        return;
      }
      var favorites := favoriteNumbers.value;
      var i := 0;
      while i < |favorites|
        invariant 0 <= i <= |favorites|
        invariant daoLog == old(daoLog) + RemovalOps(favorites[..i], contact, phoneNumber, util)
      {
        assert favorites[..i + 1][..i] == favorites[..i];
        if Matches(favorites[i], contact, phoneNumber, util) {
          daoLog := daoLog + [Delete(favorites[i])];
        }
        i := i + 1;
      }
      assert favorites[..i] == favorites;
    }

    /**
     * convertToContacts: an empty list before the favourites are loaded; otherwise the
     * contacts the favourites resolve to, in order. The favourites that resolved to a
     * contact with another id or key are refreshed in place and written back in one batch,
     * which is skipped when there are none.
     */
    method ConvertToContacts(lookup: FavoriteNumber -> Option<ContactIdentity>) returns (posted: seq<ContactIdentity>)
      modifies this`favoriteNumbers, this`daoLog
      ensures old(favoriteNumbers).None? ==> posted == [] && favoriteNumbers == old(favoriteNumbers) && daoLog == old(daoLog)
      ensures old(favoriteNumbers).Some? ==>
                var favorites := old(favoriteNumbers).value;
                posted == ResolvedContacts(favorites, lookup)
                && favoriteNumbers == Some(RefreshAll(favorites, lookup))
                && daoLog == old(daoLog) + (if OutOfDateList(favorites, lookup) == [] then []
                                              else [UpdateAll(OutOfDateList(favorites, lookup))])
    {
      if favoriteNumbers.None? {
        return [];
      }
      var favorites := favoriteNumbers.value;
      var outOfDateList: seq<FavoriteNumber> := [];
      var favoriteContacts: seq<ContactIdentity> := [];
      var updated := favorites;
      var i := 0;
      while i < |favorites|
        invariant 0 <= i <= |favorites| && |updated| == |favorites|
        invariant favoriteContacts == ResolvedContacts(favorites[..i], lookup)
        invariant outOfDateList == OutOfDateList(favorites[..i], lookup)
        invariant forall k :: 0 <= k < i ==> updated[k] == Refreshed(favorites[k], lookup(favorites[k]))
        invariant forall k :: i <= k < |favorites| ==> updated[k] == favorites[k]
      {
        assert favorites[..i + 1][..i] == favorites[..i];
        var favoriteNumber := favorites[i];
        var contact := lookup(favoriteNumber);
        if contact.Some? {
          favoriteContacts := favoriteContacts + [contact.value];
          if favoriteNumber.contactId != contact.value.id || favoriteNumber.contactLookupKey != contact.value.lookupKey {
            favoriteNumber := favoriteNumber.(contactLookupKey := contact.value.lookupKey);
            favoriteNumber := favoriteNumber.(contactId := contact.value.id);
            updated := updated[i := favoriteNumber];
            outOfDateList := outOfDateList + [favoriteNumber];
          }
        }
        i := i + 1;
      }
      assert favorites[..i] == favorites;
      assert updated == RefreshAll(favorites, lookup);
      favoriteNumbers := Some(updated);
      posted := favoriteContacts;
      if outOfDateList != [] {
        daoLog := daoLog + [UpdateAll(outOfDateList)];
      }
    }

    /** cleanup: keeps the favourites of the given devices, by their addresses. */
    method CleanupDevices(devices: seq<BluetoothDevice>)
      modifies this`daoLog
      ensures |daoLog| == |old(daoLog)| + 1 && daoLog[..|old(daoLog)|] == old(daoLog)
      ensures var op := daoLog[|old(daoLog)|];
              op.Cleanup? && |op.deviceAddresses| == |devices|
              && forall i :: 0 <= i < |devices| ==> op.deviceAddresses[i] == devices[i].address
    {
      var deviceAddresses: seq<string> := [];
      var i := 0;
      while i < |devices|
        invariant 0 <= i <= |devices| && |deviceAddresses| == i
        invariant forall k :: 0 <= k < i ==> deviceAddresses[k] == devices[k].address
      {
        deviceAddresses := deviceAddresses + [devices[i].address];
        i := i + 1;
      }
      daoLog := daoLog + [Cleanup(deviceAddresses)];
    }
  }
}
