/**
 * ListItemOutlineResolver: the corners of one card in a vertical list of cards, rounded so that
 * all the cards together look like one rectangle with rounded corners.
 */
module ListItemOutlines {
  import opened Wrappers
  import opened JavaStrings

  /** The corners a ListItemOutlineProvider rounds. */
  datatype Corners = Corners(roundedTop: bool, roundedBottom: bool)

  /**
   * setOutline: a negative position throws IllegalArgumentException and a position at or past
   * the end throws IndexOutOfBoundsException; for a valid position the top is rounded exactly
   * on the first card and the bottom exactly on the last.
   */
  function SetOutline(currentPosition: int, totalItems: int): (r: Result<Corners>)
    ensures currentPosition < 0 <==> r.Throws? && r.exception.IllegalArgumentException?
    ensures 0 <= currentPosition && totalItems <= currentPosition <==>
              r.Throws? && r.exception.IndexOutOfBoundsException?
    ensures r.Ok? <==> 0 <= currentPosition < totalItems
    ensures r.Ok? ==> (r.value.roundedTop <==> currentPosition == 0)
    ensures r.Ok? ==> (r.value.roundedBottom <==> currentPosition == totalItems - 1)
  {
    if currentPosition < 0 then
      Throws(IllegalArgumentException("currentPosition cannot be less than zero."))
    else if currentPosition >= totalItems then
      Throws(IndexOutOfBoundsException("currentPosition: " + DecimalString(currentPosition) + "; "
                                       + "totalItems: " + DecimalString(totalItems)))
    else if totalItems == 1 then Ok(Corners(true, true))
    else if currentPosition == 0 then Ok(Corners(true, false))
    else if currentPosition == totalItems - 1 then Ok(Corners(false, true))
    else Ok(Corners(false, false))
  }

  /**
   * The four cases of the method's comment: the only card is rounded all round, the first of
   * several only at the top, the last of several only at the bottom, a middle one nowhere.
   */
  lemma OutlineCases(currentPosition: int, totalItems: int)
    requires 0 <= currentPosition < totalItems
    ensures totalItems == 1 ==> SetOutline(currentPosition, totalItems) == Ok(Corners(true, true))
    ensures totalItems > 1 && currentPosition == 0 ==>
              SetOutline(currentPosition, totalItems) == Ok(Corners(true, false))
    ensures totalItems > 1 && currentPosition == totalItems - 1 ==>
              SetOutline(currentPosition, totalItems) == Ok(Corners(false, true))
    ensures 0 < currentPosition < totalItems - 1 ==>
              SetOutline(currentPosition, totalItems) == Ok(Corners(false, false))
  {
  }
}
