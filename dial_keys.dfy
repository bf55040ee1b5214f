/**
 * The twelve dial keys shared by every dialpad: their KeyEvent keycodes and the tables that
 * map a keycode to its DTMF tone, its dial character and the id of its keypad button.
 * The keycode and tone values are those of the Android SDK (KeyEvent.KEYCODE_0 is 7,
 * ToneGenerator.TONE_DTMF_0 is 0).
 */
module DialKeys {

  const KEYCODE_0: int := 7
  const KEYCODE_1: int := 8
  const KEYCODE_2: int := 9
  const KEYCODE_3: int := 10
  const KEYCODE_4: int := 11
  const KEYCODE_5: int := 12
  const KEYCODE_6: int := 13
  const KEYCODE_7: int := 14
  const KEYCODE_8: int := 15
  const KEYCODE_9: int := 16
  const KEYCODE_STAR: int := 17
  const KEYCODE_POUND: int := 18

  const TONE_DTMF_0: int := 0
  const TONE_DTMF_1: int := 1
  const TONE_DTMF_2: int := 2
  const TONE_DTMF_3: int := 3
  const TONE_DTMF_4: int := 4
  const TONE_DTMF_5: int := 5
  const TONE_DTMF_6: int := 6
  const TONE_DTMF_7: int := 7
  const TONE_DTMF_8: int := 8
  const TONE_DTMF_9: int := 9
  const TONE_DTMF_S: int := 10
  const TONE_DTMF_P: int := 11

  /** sToneMap: keycode to DTMF tone. */
  const ToneMap: map<int, int> :=
    map[KEYCODE_1 := TONE_DTMF_1, KEYCODE_2 := TONE_DTMF_2, KEYCODE_3 := TONE_DTMF_3,
        KEYCODE_4 := TONE_DTMF_4, KEYCODE_5 := TONE_DTMF_5, KEYCODE_6 := TONE_DTMF_6,
        KEYCODE_7 := TONE_DTMF_7, KEYCODE_8 := TONE_DTMF_8, KEYCODE_9 := TONE_DTMF_9,
        KEYCODE_0 := TONE_DTMF_0, KEYCODE_STAR := TONE_DTMF_S, KEYCODE_POUND := TONE_DTMF_P]

  /** The sDialValueMap of the dialpad fragments: keycode to dial character. */
  const DialCharMap: map<int, char> :=
    map[KEYCODE_1 := '1', KEYCODE_2 := '2', KEYCODE_3 := '3', KEYCODE_4 := '4',
        KEYCODE_5 := '5', KEYCODE_6 := '6', KEYCODE_7 := '7', KEYCODE_8 := '8',
        KEYCODE_9 := '9', KEYCODE_0 := '0', KEYCODE_STAR := '*', KEYCODE_POUND := '#']

  /** The sDialValueMap of the keypad and the legacy dialer: keycode to dial string. */
  const DialStringMap: map<int, string> :=
    map[KEYCODE_1 := "1", KEYCODE_2 := "2", KEYCODE_3 := "3", KEYCODE_4 := "4",
        KEYCODE_5 := "5", KEYCODE_6 := "6", KEYCODE_7 := "7", KEYCODE_8 := "8",
        KEYCODE_9 := "9", KEYCODE_0 := "0", KEYCODE_STAR := "*", KEYCODE_POUND := "#"]

  /** sRIdMap: keycode to the keypad button's view id, by resource name. */
  const ViewIdMap: map<int, string> :=
    map[KEYCODE_1 := "one", KEYCODE_2 := "two", KEYCODE_3 := "three", KEYCODE_4 := "four",
        KEYCODE_5 := "five", KEYCODE_6 := "six", KEYCODE_7 := "seven", KEYCODE_8 := "eight",
        KEYCODE_9 := "nine", KEYCODE_0 := "zero", KEYCODE_STAR := "star", KEYCODE_POUND := "pound"]

  /** One of the twelve keys of the dialpad. */
  predicate IsDialKeyCode(keycode: int) {
    KEYCODE_0 <= keycode <= KEYCODE_POUND
  }

  /**
   * The i-th key of the button-id table in SparseArray order (ascending keycode), which is
   * the order in which setupKeypadClickListeners visits the keys.
   */
  function KeyAt(i: int): (keycode: int)
    requires 0 <= i < 12
    ensures IsDialKeyCode(keycode) && keycode in ViewIdMap
    ensures forall j :: 0 <= j < i ==> KeyAt(j) < keycode
  {
    KEYCODE_0 + i
  }

  /** The four tables are defined for exactly the twelve dial keys. */
  lemma TablesCoverDialKeys(keycode: int)
    ensures keycode in ToneMap <==> IsDialKeyCode(keycode)
    ensures keycode in DialCharMap <==> IsDialKeyCode(keycode)
    ensures keycode in DialStringMap <==> IsDialKeyCode(keycode)
    ensures keycode in ViewIdMap <==> IsDialKeyCode(keycode)
  {
    if IsDialKeyCode(keycode) {
      assert keycode in {7, 8, 9, 10, 11, 12, 13, 14, 15, 16, 17, 18};
    }
  }

  /**
   * The tone played for a key: the digit keys play the DTMF tone of their own digit, the
   * star and pound keys the S and P tones.
   */
  function Tone(keycode: int): (tone: int)
    requires IsDialKeyCode(keycode)
    ensures KEYCODE_0 <= keycode <= KEYCODE_9 ==> tone == TONE_DTMF_0 + (keycode - KEYCODE_0)
    ensures keycode == KEYCODE_STAR ==> tone == TONE_DTMF_S
    ensures keycode == KEYCODE_POUND ==> tone == TONE_DTMF_P
  {
    TablesCoverDialKeys(keycode);
    ToneMap[keycode]
  }

  /**
   * The character a key dials: the digit keys dial their own digit, the others '*' and '#';
   * the keypad's string value is that one character.
   */
  function DialChar(keycode: int): (c: char)
    requires IsDialKeyCode(keycode)
    ensures KEYCODE_0 <= keycode <= KEYCODE_9 ==> c as int == '0' as int + (keycode - KEYCODE_0)
    ensures keycode == KEYCODE_STAR ==> c == '*'
    ensures keycode == KEYCODE_POUND ==> c == '#'
    ensures keycode in DialStringMap && DialStringMap[keycode] == [c]
  {
    TablesCoverDialKeys(keycode);
    DialCharMap[keycode]
  }

  /** Distinct keys dial distinct characters, so the dialed string determines the keys. */
  lemma DialCharInjective(k1: int, k2: int)
    requires IsDialKeyCode(k1) && IsDialKeyCode(k2) && DialChar(k1) == DialChar(k2)
    ensures k1 == k2
  {
  }
}
