/**
 * I18nPhoneNumberWrapper: a raw phone number together with its libphonenumber parse, when it
 * parses. Two parsed numbers are equal when libphonenumber calls them an exact or national
 * match; two unparsed ones when their raw strings are equal; a parsed and an unparsed one
 * never are.
 */
module I18nPhoneNumberWrappers {
  import opened Wrappers

  /** A libphonenumber Phonenumber.PhoneNumber; its fields are not looked at here. */
  datatype ParsedNumber = ParsedNumber(countryCode: int, nationalNumber: int, extension: string)

  /** PhoneNumberUtil.MatchType. */
  datatype MatchType = NotANumber | NoMatch | ShortNsnMatch | NsnMatch | ExactMatch

  /**
   * What the wrapper gets from libphonenumber: TelecomUtils.createI18nPhoneNumber's parse,
   * the international format, isNumberMatch and the parsed number's hashCode.
   */
  datatype PhoneNumberUtil = PhoneNumberUtil(
    parse: string -> Option<ParsedNumber>,
    formatInternational: ParsedNumber -> string,
    isNumberMatch: (ParsedNumber, ParsedNumber) -> MatchType,
    parsedHashCode: ParsedNumber -> int)

  datatype I18nPhoneNumberWrapper = Wrapper(i18nPhoneNumber: Option<ParsedNumber>, rawNumber: string, number: string)

  /**
   * newInstance: the raw number is kept as given; the number is the international format of
   * the parse, or the raw number when it does not parse.
   */
  function NewInstance(rawNumber: string, util: PhoneNumberUtil): (w: I18nPhoneNumberWrapper)
    ensures w.rawNumber == rawNumber
    ensures w.i18nPhoneNumber == util.parse(rawNumber)
    ensures util.parse(rawNumber).None? ==> w.number == rawNumber
    ensures util.parse(rawNumber).Some? ==> w.number == util.formatInternational(util.parse(rawNumber).value)
  {
    var parsed := util.parse(rawNumber);
    Wrapper(parsed, rawNumber, if parsed.None? then rawNumber else util.formatInternational(parsed.value))
  }

  /**
   * equals: false for anything that is not a wrapper (None); a match of two parses, the raw
   * strings of two failed parses, and never a parse against a failed one.
   */
  function Equals(w: I18nPhoneNumberWrapper, obj: Option<I18nPhoneNumberWrapper>, util: PhoneNumberUtil): (b: bool)
    ensures obj.None? ==> !b
    ensures obj.Some? && w.i18nPhoneNumber.Some? && obj.value.i18nPhoneNumber.Some? ==>
              (b <==> util.isNumberMatch(w.i18nPhoneNumber.value, obj.value.i18nPhoneNumber.value) in {ExactMatch, NsnMatch})
    ensures obj.Some? && w.i18nPhoneNumber.None? && obj.value.i18nPhoneNumber.None? ==>
              (b <==> w.rawNumber == obj.value.rawNumber)
    ensures obj.Some? && (w.i18nPhoneNumber.None? != obj.value.i18nPhoneNumber.None?) ==> !b
  {
    if obj.None? then false
    else
      var other := obj.value;
      if w.i18nPhoneNumber.Some? && other.i18nPhoneNumber.Some? then
        var matchType := util.isNumberMatch(w.i18nPhoneNumber.value, other.i18nPhoneNumber.value);
        matchType == ExactMatch || matchType == NsnMatch
      else if w.i18nPhoneNumber.None? && other.i18nPhoneNumber.None? then
        w.rawNumber == other.rawNumber
      else false
  }

  /** hashCode: Objects.hashCode of the parse, 0 when there is none. */
  function HashCode(w: I18nPhoneNumberWrapper, util: PhoneNumberUtil): (h: int)
    ensures w.i18nPhoneNumber.None? ==> h == 0
    ensures w.i18nPhoneNumber.Some? ==> h == util.parsedHashCode(w.i18nPhoneNumber.value)
  {
    if w.i18nPhoneNumber.None? then 0 else util.parsedHashCode(w.i18nPhoneNumber.value)
  }

  /**
   * Two wrappers made from raw numbers that do not parse are equal exactly when the raw
   * numbers are, and then they also show the same number and hash alike.
   */
  lemma UnparsedWrappers(raw1: string, raw2: string, util: PhoneNumberUtil)
    requires util.parse(raw1).None? && util.parse(raw2).None?
    ensures Equals(NewInstance(raw1, util), Some(NewInstance(raw2, util)), util) <==> raw1 == raw2
    ensures HashCode(NewInstance(raw1, util), util) == HashCode(NewInstance(raw2, util), util) == 0
    ensures NewInstance(raw1, util).number == raw1
  {
  }

  /** A raw number that parses is never equal to one that does not, whatever their strings. */
  lemma ParsedNeverEqualsUnparsed(raw1: string, raw2: string, util: PhoneNumberUtil)
    requires util.parse(raw1).Some? && util.parse(raw2).None?
    ensures !Equals(NewInstance(raw1, util), Some(NewInstance(raw2, util)), util)
    ensures !Equals(NewInstance(raw2, util), Some(NewInstance(raw1, util)), util)
  {
  }
}
