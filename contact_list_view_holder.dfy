/**
 * ContactListViewHolder: one row of the contact list, the contact's name, a label for its
 * numbers, a button that opens the contact's details and a call button.
 */
module ContactListViewHolders {
  import opened Wrappers
  import opened ContactViews

  /**
   * The row after onBind: its title, the label of its text view (None when the layout has no
   * text view, so no label is set), and what its two buttons do.
   */
  datatype Binding = Binding(title: string, labelText: Option<UiText>, showDetailClick: Action, callActionClick: Action)

  /**
   * setLabelText's label: the only number's readable label ("" when it has none), the
   * "multiple" string for several numbers, and "" for none.
   */
  function LabelText(contact: Contact): (t: UiText)
    ensures |contact.numbers| == 1 ==> t == Raw(if contact.numbers[0].readableLabel.Some? then contact.numbers[0].readableLabel.value else "")
    ensures |contact.numbers| > 1 <==> t == Res("type_multiple")
    ensures |contact.numbers| == 0 ==> t == Raw("")
  {
    if |contact.numbers| == 1 then
      var readableLabel := contact.numbers[0].readableLabel;
      Raw(if readableLabel.Some? then readableLabel.value else "")
    else if |contact.numbers| > 1 then Res("type_multiple")
    else Raw("")
  }

  /**
   * The call button: it calls the raw number when the contact has exactly one number and
   * otherwise opens the contact's details.
   */
  function CallAction(contact: Contact): (a: Action)
    ensures a.PlaceCall? <==> |contact.numbers| == 1
    ensures a.PlaceCall? ==> a.number == contact.numbers[0].rawNumber
    ensures !a.PlaceCall? ==> a == ShowContactDetail(contact)
  {
    if |contact.numbers| == 1 then PlaceCall(contact.numbers[0].rawNumber)
    else ShowContactDetail(contact)
  }

  /**
   * onBind: the title is the display name, the show-detail button always opens the details,
   * the call button follows CallAction, and the label is set only when there is a text view.
   */
  function OnBind(contact: Contact, hasTextView: bool): (b: Binding)
    ensures b.title == contact.displayName
    ensures b.showDetailClick == ShowContactDetail(contact)
    ensures b.callActionClick == CallAction(contact)
    ensures b.labelText.Some? <==> hasTextView
    ensures b.labelText.Some? ==> b.labelText.value == LabelText(contact)
  {
    Binding(contact.displayName, if hasTextView then Some(LabelText(contact)) else None,
            ShowContactDetail(contact), CallAction(contact))
  }

  /**
   * The row's two signals agree: for a contact with numbers, the call button calls directly
   * exactly when the label is not "multiple", and it never calls a contact without numbers.
   */
  lemma CallActionAgreesWithLabel(contact: Contact, hasTextView: bool)
    ensures var b := OnBind(contact, hasTextView);
            |contact.numbers| >= 1 ==> (b.callActionClick.PlaceCall? <==> LabelText(contact) != Res("type_multiple"))
    ensures |contact.numbers| == 0 ==> OnBind(contact, hasTextView).callActionClick == OnBind(contact, hasTextView).showDetailClick
  {
  }
}
