/**
 * ContactDetailsViewHolder: the views of the contact details page, a header with the contact's
 * name and two hero buttons (call and text), and one row per phone number.
 */
module ContactDetailsViewHolders {
  import opened Wrappers
  import opened ContactViews

  /** A hero button as bound: its text, its click action and whether it is visible. */
  datatype HeroButton = HeroButton(text: UiText, onClick: Action, visible: bool)

  /**
   * The header's views. A hero button is None when the layout does not have it; the title view
   * is always there.
   */
  datatype HeaderViews = HeaderViews(title: UiText, callHero: Option<HeroButton>, textHero: Option<HeroButton>)

  /** A phone-number row as bound. */
  datatype NumberRow = NumberRow(title: UiText, text: UiText, callAction: Action, sendTextAction: Action)

  /** What sendText does: start the SMS activity for the address, or show an error toast. */
  datatype TextOutcome = StartSmsActivity(address: string) | ShowToast(message: string)

  /** The number the header's buttons act on: the only number if there is one, else the primary. */
  function PrimaryNumber(contact: Contact): (n: Option<Number>)
    ensures |contact.numbers| == 1 ==> n == Some(contact.numbers[0])
    ensures |contact.numbers| != 1 ==> n == contact.primaryPhoneNumber
  {
    if |contact.numbers| == 1 then Some(contact.numbers[0]) else contact.primaryPhoneNumber
  }

  /** setTextAndClickListener: nothing for a missing view, otherwise its text and listener. */
  function SetTextAndClickListener(view: Option<HeroButton>, text: UiText, onClick: Action): (r: Option<HeroButton>)
    ensures r.Some? <==> view.Some?
    ensures r.Some? ==> r.value == HeroButton(text, onClick, view.value.visible)
  {
    if view.None? then None else Some(view.value.(text := text, onClick := onClick))
  }

  /** ViewUtils.setVisible: nothing for a missing view. */
  function SetVisible(view: Option<HeroButton>, visible: bool): (r: Option<HeroButton>)
    ensures r.Some? <==> view.Some?
    ensures r.Some? ==> r.value == view.value.(visible := visible)
  {
    if view.None? then None else Some(view.value.(visible := visible))
  }

  /**
   * bind(Context, Contact). A null contact gets the deleted-contact title and hidden hero
   * buttons, their texts and listeners left as they were. Otherwise the title is the display
   * name, both hero buttons are visible, and they call and text the primary number directly,
   * with its label in their texts, when there is one, or prompt for a number when there is not.
   */
  function BindContact(views: HeaderViews, contact: Option<Contact>): (r: HeaderViews)
    ensures r.callHero.Some? <==> views.callHero.Some?
    ensures r.textHero.Some? <==> views.textHero.Some?
    ensures contact.None? ==> r.title == Res("error_contact_deleted")
    ensures contact.None? ==> r.callHero == SetVisible(views.callHero, false)
    ensures contact.None? ==> r.textHero == SetVisible(views.textHero, false)
    ensures contact.Some? ==> r.title == Raw(contact.value.displayName)
    ensures contact.Some? && r.callHero.Some? ==> r.callHero.value.visible
    ensures contact.Some? && r.textHero.Some? ==> r.textHero.value.visible
    ensures contact.Some? && PrimaryNumber(contact.value).Some? && r.callHero.Some? ==>
              var n := PrimaryNumber(contact.value).value;
              r.callHero.value.onClick == PlaceCall(n.rawNumber) &&
              r.callHero.value.text == ResWithArg("contact_details_call_number_button_with_label", n.readableLabel)
    ensures contact.Some? && PrimaryNumber(contact.value).Some? && r.textHero.Some? ==>
              var n := PrimaryNumber(contact.value).value;
              r.textHero.value.onClick == SendText(n) &&
              r.textHero.value.text == ResWithArg("contact_details_text_number_button_with_label", n.readableLabel)
    ensures contact.Some? && PrimaryNumber(contact.value).None? && r.callHero.Some? ==>
              r.callHero.value.onClick == PromptForPrimaryNumberToCall(contact.value) &&
              r.callHero.value.text == Res("contact_details_call_number_button")
    ensures contact.Some? && PrimaryNumber(contact.value).None? && r.textHero.Some? ==>
              r.textHero.value.onClick == PromptForPrimaryNumberToText(contact.value) &&
              r.textHero.value.text == Res("contact_details_text_number_button")
  {
    if contact.None? then
      HeaderViews(Res("error_contact_deleted"), SetVisible(views.callHero, false), SetVisible(views.textHero, false))
    else
      var c := contact.value;
      var primaryNumber := PrimaryNumber(c);
      var heroes :=
        if primaryNumber.Some? then
          var numberLabel := primaryNumber.value.readableLabel;
          (SetTextAndClickListener(views.callHero, ResWithArg("contact_details_call_number_button_with_label", numberLabel),
                                   PlaceCall(primaryNumber.value.rawNumber)),
           SetTextAndClickListener(views.textHero, ResWithArg("contact_details_text_number_button_with_label", numberLabel),
                                   SendText(primaryNumber.value)))
        else
          (SetTextAndClickListener(views.callHero, Res("contact_details_call_number_button"),
                                   PromptForPrimaryNumberToCall(c)),
           SetTextAndClickListener(views.textHero, Res("contact_details_text_number_button"),
                                   PromptForPrimaryNumberToText(c)));
      HeaderViews(Raw(c.displayName), SetVisible(heroes.0, true), SetVisible(heroes.1, true))
  }

  /**
   * bind(Context, PhoneNumber): the raw number as title, the number's description, and buttons
   * that call and text that number.
   */
  function BindNumber(n: Number): (r: NumberRow)
    ensures r.title == Raw(n.rawNumber)
    ensures r.text == NumberDescription(n)
    ensures r.callAction == PlaceCall(n.rawNumber) && r.sendTextAction == SendText(n)
  {
    NumberRow(Raw(n.rawNumber), NumberDescription(n), PlaceCall(n.rawNumber), SendText(n))
  }

  /** sendText: the SMS activity with the raw number as address when one can handle it, else a toast. */
  function SendTextOutcome(n: Number, hasTextHandler: bool): (o: TextOutcome)
    ensures o.StartSmsActivity? <==> hasTextHandler
    ensures o.StartSmsActivity? ==> o.address == n.rawNumber
    ensures o.ShowToast? ==> o.message == "error_no_text_intent_handler"
  {
    if hasTextHandler then StartSmsActivity(n.rawNumber) else ShowToast("error_no_text_intent_handler")
  }

  /**
   * A contact with a single number needs no prompt: both hero buttons act on that number,
   * whatever the contact's primary number is.
   */
  lemma SingleNumberActsDirectly(views: HeaderViews, contact: Contact)
    requires |contact.numbers| == 1
    ensures var r := BindContact(views, Some(contact));
            (r.callHero.Some? ==> r.callHero.value.onClick == PlaceCall(contact.numbers[0].rawNumber)) &&
            (r.textHero.Some? ==> r.textHero.value.onClick == SendText(contact.numbers[0]))
  {
  }

  /** The call hero button and a number row call the same number for a one-number contact. */
  lemma HeroCallsLikeTheRow(views: HeaderViews, contact: Contact)
    requires |contact.numbers| == 1 && views.callHero.Some?
    ensures BindContact(views, Some(contact)).callHero.value.onClick == BindNumber(contact.numbers[0]).callAction
  {
  }
}
