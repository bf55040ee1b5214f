/**
 * FavoriteFragment: the grid of favourite contacts. A click on a contact calls its primary
 * number, its only number, or the number the user picks in a dialog; the grid is paged and
 * its cells are spaced by column.
 */
module FavoriteFragments {
  import opened Wrappers
  import opened PhoneNumbers

  const KEY_MAX_CLICKS: string := "max_clicks"
  const DEFAULT_MAX_CLICKS: int := 6

  /** A favourite contact as onItemClicked reads it: its numbers and its primary number, if any. */
  datatype FavoriteContact = FavoriteContact(displayName: Option<string>, numbers: seq<PhoneNumber>, primaryPhoneNumber: Option<PhoneNumber>)

  /** What the fragment asks of the call manager and of the contacts provider. */
  datatype Effect = PlaceCall(number: string) | SetAsPrimaryPhoneNumber(phoneNumber: PhoneNumber)

  /** The fragment's arguments bundle; a missing max_clicks key is None. */
  datatype Arguments = Arguments(maxClicks: Option<int>)

  /** The padding getItemOffsets gives a cell. */
  datatype Offsets = Offsets(left: int, top: int, right: int, bottom: int)

  /** placeCall: call the number, then make it the primary number if asked to. */
  function PlaceCallEffects(number: PhoneNumber, setAsPrimary: bool): (effects: seq<Effect>)
    ensures !setAsPrimary ==> effects == [PlaceCall(number.number)]
    ensures setAsPrimary ==> effects == [PlaceCall(number.number), SetAsPrimaryPhoneNumber(number)]
  {
    [PlaceCall(number.number)] + if setAsPrimary then [SetAsPrimaryPhoneNumber(number)] else []
  }

  /**
   * onItemClicked: the effects of the click and the dialog it opens, if any. A primary number
   * is called at once and nothing else happens; a contact without numbers gets no call; a
   * single number is called without being made primary; several numbers open the dialog.
   */
  function OnItemClicked(contact: FavoriteContact): (r: (seq<Effect>, Option<seq<PhoneNumber>>))
    ensures contact.primaryPhoneNumber.Some? ==>
              r == (PlaceCallEffects(contact.primaryPhoneNumber.value, false), None)
    ensures contact.primaryPhoneNumber.None? && |contact.numbers| == 0 ==> r == ([], None)
    ensures contact.primaryPhoneNumber.None? && |contact.numbers| == 1 ==>
              r == ([PlaceCall(contact.numbers[0].number)], None)
    ensures contact.primaryPhoneNumber.None? && |contact.numbers| > 1 ==> r == ([], Some(contact.numbers))
  {
    if contact.primaryPhoneNumber.Some? then (PlaceCallEffects(contact.primaryPhoneNumber.value, false), None)
    else if |contact.numbers| == 0 then ([], None)
    else if |contact.numbers| == 1 then (PlaceCallEffects(contact.numbers[0], false), None)
    else ([], Some(contact.numbers))
  }

  /** A click never makes a number primary by itself, and it places at most one call. */
  lemma ClickNeverSetsPrimary(contact: FavoriteContact)
    ensures forall e :: e in OnItemClicked(contact).0 ==> e.PlaceCall?
    ensures |OnItemClicked(contact).0| <= 1
    ensures OnItemClicked(contact).1.Some? ==> OnItemClicked(contact).0 == []
  {
  }

  /**
   * The number-selection dialog of a contact with several numbers. A choice replaces the
   * selection; "just once" calls the selection, "always" also makes it the primary number,
   * and either does nothing while no number is selected.
   */
  class SelectNumberDialog {
    const choices: seq<PhoneNumber>
    /** selectedPhoneNumber: empty, or the one number chosen last. */
    var selected: seq<PhoneNumber>

    constructor (choices: seq<PhoneNumber>)
      ensures this.choices == choices && selected == []
      ensures Valid()
    {
      this.choices := choices;
      selected := [];
    }

    /** The selection holds at most one number, and only one of the choices. */
    ghost predicate Valid()
      reads this
    {
      |selected| <= 1 && forall p :: p in selected ==> p in choices
    }

    /** The single-choice listener: the selection becomes the chosen row's number. */
    method OnChoice(which: int)
      requires 0 <= which < |choices|
      modifies this`selected
      ensures selected == [choices[which]]
      ensures Valid()
    {
      selected := [];
      selected := selected + [choices[which]];
    }

    /**
     * The neutral "just once" button: call the selection, without making it primary. The
     * number called is always one of the contact's numbers.
     */
    method OnJustOnce() returns (effects: seq<Effect>)
      requires Valid()
      ensures selected != [] ==> selected[0] in choices
      ensures selected == [] ==> effects == []
      ensures selected != [] ==> effects == [PlaceCall(selected[0].number)]
    {
      effects := if selected != [] then PlaceCallEffects(selected[0], false) else [];
    }

    /**
     * The positive "always" button: call the selection and make it the primary number, which
     * is always one of the contact's numbers.
     */
    method OnAlways() returns (effects: seq<Effect>)
      requires Valid()
      ensures selected != [] ==> selected[0] in choices
      ensures selected == [] ==> effects == []
      ensures selected != [] ==> effects == [PlaceCall(selected[0].number), SetAsPrimaryPhoneNumber(selected[0])]
    {
      effects := if selected != [] then PlaceCallEffects(selected[0], true) else [];
    }
  }

  /**
   * getMaxPages: max_clicks from the arguments, 6 without arguments or without the key; a
   * negative value means no limit, -1.
   */
  function MaxPages(args: Option<Arguments>): (pages: int)
    ensures args.None? || args.value.maxClicks.None? ==> pages == DEFAULT_MAX_CLICKS
    ensures args.Some? && args.value.maxClicks.Some? && args.value.maxClicks.value < 0 ==> pages == -1
    ensures args.Some? && args.value.maxClicks.Some? && args.value.maxClicks.value >= 0 ==>
              pages == args.value.maxClicks.value
    ensures pages >= -1
  {
    var maxClicks := if args.None? || args.value.maxClicks.None? then DEFAULT_MAX_CLICKS else args.value.maxClicks.value;
    if maxClicks < 0 then -1 else maxClicks
  }

  /**
   * Java's `%`, which keeps the sign of the dividend (Dafny's `%` never gives a negative
   * remainder).
   */
  function JavaRemainder(x: int, m: int): (r: int)
    requires m > 0
    ensures x >= 0 ==> r == x % m
    ensures x < 0 ==> r == -((-x) % m)
    ensures -m < r < m
  {
    if x >= 0 then x % m else -((-x) % m)
  }

  /**
   * ItemSpacingDecoration.getItemOffsets: a cell at an even adapter position (left column) is
   * padded on the right, any other on the left (the unbound position -1 included); top and
   * bottom are always padded.
   */
  function ItemOffsets(adapterPosition: int, carPadding1: int): (o: Offsets)
    ensures o.top == carPadding1 && o.bottom == carPadding1
    ensures adapterPosition % 2 == 0 ==> o.left == 0 && o.right == carPadding1
    ensures adapterPosition % 2 != 0 ==> o.left == carPadding1 && o.right == 0
  {
    if JavaRemainder(adapterPosition, 2) == 0 then Offsets(0, carPadding1, carPadding1, carPadding1)
    else Offsets(carPadding1, carPadding1, 0, carPadding1)
  }

  /** Java's remainder by 2 is zero exactly when Dafny's is: parity does not depend on the sign convention. */
  lemma JavaParityIsParity(x: int)
    ensures JavaRemainder(x, 2) == 0 <==> x % 2 == 0
  {
    if x < 0 {
      assert (-x) % 2 == 0 <==> x % 2 == 0;
    }
  }
}
