/**
 * The edits the dialpads make to their StringBuffer of dialed digits, and the saved-state
 * bundle that carries the buffer across a configuration change.
 */
module DialBuffers {
  import opened Wrappers

  /** TextUtils.isEmpty: null or the empty string. */
  predicate IsEmpty(s: Option<string>) {
    s.None? || |s.value| == 0
  }

  /** StringBuffer.append(String): a null argument appends the four characters "null". */
  function Append(buffer: string, s: Option<string>): (r: string)
    ensures s.Some? ==> r == buffer + s.value
    ensures s.None? ==> r == buffer + "null"
  {
    buffer + (if s.Some? then s.value else "null")
  }

  /**
   * setDialedNumber: setLength(0), then append the number unless it is empty; the buffer
   * is then the number, or empty for a null or empty number.
   */
  function SetTo(number: Option<string>): (r: string)
    ensures IsEmpty(number) ==> r == ""
    ensures !IsEmpty(number) ==> r == number.value
  {
    var cleared := "";
    if IsEmpty(number) then cleared else Append(cleared, number)
  }

  /**
   * removeLastDigit: deleteCharAt(length - 1) guarded by a non-empty buffer; it drops
   * exactly the last character, and leaves an empty buffer alone.
   */
  function DropLast(buffer: string): (r: string)
    ensures |buffer| == 0 ==> r == buffer
    ensures |buffer| > 0 ==> |r| == |buffer| - 1 && r + [buffer[|buffer| - 1]] == buffer
  {
    if |buffer| != 0 then buffer[..|buffer| - 1] else buffer
  }

  /** The saved-instance-state bundle; `dialNumber` is the DIAL_NUMBER_KEY entry, if any. */
  datatype Bundle = Bundle(dialNumber: Option<string>)

  /** onSaveInstanceState: puts the buffer under DIAL_NUMBER_KEY. */
  function SaveInstanceState(buffer: string): (saved: Bundle)
    ensures saved.dialNumber.Some?
  {
    Bundle(Some(buffer))
  }

  /**
   * The restore step of onCreate (onCreateView for DialpadFragment): with a saved bundle the
   * DIAL_NUMBER_KEY entry is appended to the buffer, a missing entry appending "null".
   */
  function Restore(buffer: string, saved: Option<Bundle>): (r: string)
    ensures saved.None? ==> r == buffer
    ensures saved.Some? ==> r == Append(buffer, saved.value.dialNumber)
  {
    if saved.Some? then Append(buffer, saved.value.dialNumber) else buffer
  }

  /** What is saved is what a fresh fragment restores into its empty buffer. */
  lemma RestoreSaved(buffer: string)
    ensures Restore("", Some(SaveInstanceState(buffer))) == buffer
  {
    assert "" + buffer == buffer;
  }

  /** Appending then dropping the last character is the identity on one-character appends. */
  lemma DropLastAppend(buffer: string, c: char)
    ensures DropLast(Append(buffer, Some([c]))) == buffer
  {
    assert (buffer + [c])[..|buffer|] == buffer;
  }
}
