/**
 * The contact and phone number of the shared telephony library as the contact list and the
 * contact details pages read them, and the texts and actions those pages bind to views.
 */
module ContactViews {
  import opened Wrappers

  /**
   * A phone number: its raw digits, its readable type label (null when the library gives
   * none) and whether the user made it the contact's primary number.
   */
  datatype Number = Number(rawNumber: string, readableLabel: Option<string>, isPrimary: bool)

  /** A contact: its display name, its numbers in order and its primary number, if any. */
  datatype Contact = Contact(displayName: string, numbers: seq<Number>, primaryPhoneNumber: Option<Number>)

  /** The text a view shows: a literal string, or a string resource formatted with an argument. */
  datatype UiText =
    | Raw(value: string)
    | Res(name: string)
    | ResWithArg(name: string, arg: Option<string>)

  /** What a click on a view does. */
  datatype Action =
    | PlaceCall(number: string)
    | ShowContactDetail(contact: Contact)
    | SendText(textNumber: Number)
    | PromptForPrimaryNumberToCall(contact: Contact)
    | PromptForPrimaryNumberToText(contact: Contact)
    | StartCallActivity(uri: string)
    | NoAction

  /**
   * The description of a number row: the primary-number wording around the readable label
   * exactly for the primary number, the readable label alone otherwise.
   */
  function NumberDescription(n: Number): (t: UiText)
    ensures n.isPrimary <==> t == ResWithArg("primary_number_description", n.readableLabel)
    ensures !n.isPrimary <==> t == Raw(if n.readableLabel.Some? then n.readableLabel.value else "")
  {
    if n.isPrimary then ResWithArg("primary_number_description", n.readableLabel)
    else Raw(if n.readableLabel.Some? then n.readableLabel.value else "")
  }
}
