/**
 * PhoneNumber: a contact's phone number with its type and optional user label. Two phone numbers
 * are the same number when the number and the type agree; the user label plays no part in
 * equality or hashing.
 */
module PhoneNumbers {
  import opened Wrappers
  import opened JavaStrings

  datatype PhoneNumber = PhoneNumber(number: string, numberType: int, userLabel: Option<string>)

  /** The two-argument constructor: no user label. */
  function NewPhoneNumber(number: string, numberType: int): (p: PhoneNumber)
    ensures p.number == number && p.numberType == numberType && p.userLabel.None?
  {
    NewLabelledPhoneNumber(number, numberType, None)
  }

  /** The three-argument constructor: the getters give back the arguments. */
  function NewLabelledPhoneNumber(number: string, numberType: int, userLabel: Option<string>): (p: PhoneNumber)
    ensures p.number == number && p.numberType == numberType && p.userLabel == userLabel
  {
    PhoneNumber(number, numberType, userLabel)
  }

  /** What equality and hashing look at. */
  function Key(p: PhoneNumber): (string, int) {
    (p.number, p.numberType)
  }

  /**
   * equals: false for anything that is not a phone number (None), otherwise number and type
   * must agree.
   */
  function Equals(p: PhoneNumber, obj: Option<PhoneNumber>): (b: bool)
    ensures obj.None? ==> !b
    ensures obj.Some? ==> (b <==> p.number == obj.value.number && p.numberType == obj.value.numberType)
  {
    obj.Some? && Key(p) == Key(obj.value)
  }

  /** The user label does not matter to equality. */
  lemma EqualsIgnoresLabel(p: PhoneNumber, userLabel: Option<string>)
    ensures Equals(p, Some(p.(userLabel := userLabel)))
  {
  }

  /** equals is an equivalence on phone numbers. */
  lemma EqualsIsEquivalence(p: PhoneNumber, q: PhoneNumber, r: PhoneNumber)
    ensures Equals(p, Some(p))
    ensures Equals(p, Some(q)) ==> Equals(q, Some(p))
    ensures Equals(p, Some(q)) && Equals(q, Some(r)) ==> Equals(p, Some(r))
  {
  }

  /** hashCode: Objects.hash(number, type), that is 31 * (31 + hash(number)) + type in int arithmetic. */
  function HashCode(p: PhoneNumber): (h: int)
    ensures INT32_MIN <= h <= INT32_MAX
  {
    Wrap32(31 * Wrap32(31 + StringHashCode(p.number)) + p.numberType)
  }

  /** Equal phone numbers have equal hash codes. */
  lemma EqualsAgreesWithHashCode(p: PhoneNumber, q: PhoneNumber)
    requires Equals(p, Some(q))
    ensures HashCode(p) == HashCode(q)
  {
    assert Key(p) == Key(q);
    assert p.number == q.number && p.numberType == q.numberType;
  }
}
