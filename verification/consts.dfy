/**
 * The Apple Event Manager codes the plugin matches on. Every event class and
 * event ID is a four-character code: four ASCII characters packed big-endian
 * into an unsigned 32-bit word ('aevt' is 0x61657674).
 */
module Consts {

  /** Rust's `u32`. */
  newtype u32 = x: int | 0 <= x < 0x1_0000_0000

  // Core suite.

  /** kCoreEventClass, 'aevt'. */
  const EVENT_CLASS_CORE: u32 := 0x61657674
  /** kAEOpenApplication, 'oapp'. */
  const EVENT_OPEN_APPLICATION: u32 := 0x6F617070
  /** kAEReopenApplication, 'rapp'. */
  const EVENT_REOPEN_APPLICATION: u32 := 0x72617070
  /** kAEOpenDocuments, 'odoc'. */
  const EVENT_OPEN_DOCUMENTS: u32 := 0x6F646F63
  /** kAEPrintDocuments, 'pdoc'. */
  const EVENT_PRINT_DOCUMENTS: u32 := 0x70646F63
  /** kAEOpenContents, 'ocon'. */
  const EVENT_OPEN_CONTENTS: u32 := 0x6F636F6E
  /** kAEQuitApplication, 'quit'. */
  const EVENT_QUIT_APPLICATION: u32 := 0x71756974
  /** kAEShowPreferences, 'pref'. */
  const EVENT_SHOW_PREFERENCES: u32 := 0x70726566
  /** kAEApplicationDied, 'obit'. */
  const EVENT_APPLICATION_DIED: u32 := 0x6F626974

  // Internet suite.

  /** kInternetEventClass, 'GURL'. */
  const EVENT_CLASS_INTERNET: u32 := 0x4755524c
  /** kAEGetURL, 'GURL' as well. */
  const EVENT_GET_URL: u32 := 0x4755524c

  /** keyDirectObject, '----': the keyword of an event's direct-object parameter. */
  const KEY_DIRECT_OBJECT: u32 := 0x2d2d2d2d

  /** The nine event IDs the classifier knows, in the order its match lists them. */
  const KNOWN_EVENT_IDS: seq<u32> := [
    EVENT_OPEN_APPLICATION, EVENT_REOPEN_APPLICATION, EVENT_OPEN_DOCUMENTS,
    EVENT_PRINT_DOCUMENTS, EVENT_OPEN_CONTENTS, EVENT_QUIT_APPLICATION,
    EVENT_SHOW_PREFERENCES, EVENT_APPLICATION_DIED, EVENT_GET_URL
  ]

  /** A character that fits in one byte of a four-character code. */
  predicate IsAscii(c: char) {
    c as int < 0x80
  }

  /** A four-character code as text: exactly four ASCII characters. */
  predicate IsCodeText(s: string) {
    |s| == 4 && forall i :: 0 <= i < 4 ==> IsAscii(s[i])
  }

  /** Packs four ASCII characters big-endian into one word. */
  function FourCharCode(s: string): (c: u32)
    requires IsCodeText(s)
  {
    (s[0] as int * 0x100_0000 + s[1] as int * 0x1_0000 + s[2] as int * 0x100 + s[3] as int) as u32
  }

  /** Byte `k` of a word, counting from the most significant one. */
  function CodeByte(c: u32, k: nat): (b: int)
    requires k < 4
    ensures 0 <= b < 0x100
  {
    if k == 0 then c as int / 0x100_0000
    else if k == 1 then c as int / 0x1_0000 % 0x100
    else if k == 2 then c as int / 0x100 % 0x100
    else c as int % 0x100
  }

  /** Every byte of the word is an ASCII character, so the word spells a code. */
  predicate IsAsciiCode(c: u32) {
    forall k :: 0 <= k < 4 ==> CodeByte(c, k) < 0x80
  }

  /** Unpacks a word into its four characters, most significant byte first. */
  function CodeText(c: u32): (s: string)
    ensures |s| == 4
    ensures forall k :: 0 <= k < 4 ==> s[k] as int == CodeByte(c, k)
  {
    [CodeByte(c, 0) as char, CodeByte(c, 1) as char, CodeByte(c, 2) as char, CodeByte(c, 3) as char]
  }

  /** Unpacking a packed code gives back its characters. */
  lemma CodeTextOfFourCharCode(s: string)
    requires IsCodeText(s)
    ensures CodeText(FourCharCode(s)) == s
  {
    var a, b, c, d := s[0] as int, s[1] as int, s[2] as int, s[3] as int;
    assert IsAscii(s[0]) && IsAscii(s[1]) && IsAscii(s[2]) && IsAscii(s[3]);
    var w := FourCharCode(s) as int;
    assert w == a * 0x100_0000 + (b * 0x1_0000 + c * 0x100 + d);
    assert w / 0x1_0000 == a * 0x100 + b;
    assert w / 0x100 == a * 0x1_0000 + b * 0x100 + c;
    var t := CodeText(FourCharCode(s));
    assert t[0] as int == a && t[1] as int == b && t[2] as int == c && t[3] as int == d;
  }

  /** Packing the characters of an ASCII word gives back the word. */
  lemma FourCharCodeOfCodeText(c: u32)
    requires IsAsciiCode(c)
    ensures IsCodeText(CodeText(c)) && FourCharCode(CodeText(c)) == c
  {
    var w := c as int;
    assert w == (w / 0x100_0000) * 0x100_0000 + (w / 0x1_0000 % 0x100) * 0x1_0000
              + (w / 0x100 % 0x100) * 0x100 + w % 0x100;
  }

  /** Each constant is the packing of the Apple code it is named after. */
  lemma ConstantsSpellTheirCodes()
    ensures CodeText(EVENT_CLASS_CORE) == "aevt"
    ensures CodeText(EVENT_OPEN_APPLICATION) == "oapp"
    ensures CodeText(EVENT_REOPEN_APPLICATION) == "rapp"
    ensures CodeText(EVENT_OPEN_DOCUMENTS) == "odoc"
    ensures CodeText(EVENT_PRINT_DOCUMENTS) == "pdoc"
    ensures CodeText(EVENT_OPEN_CONTENTS) == "ocon"
    ensures CodeText(EVENT_QUIT_APPLICATION) == "quit"
    ensures CodeText(EVENT_SHOW_PREFERENCES) == "pref"
    ensures CodeText(EVENT_APPLICATION_DIED) == "obit"
    ensures CodeText(EVENT_CLASS_INTERNET) == "GURL"
    ensures CodeText(EVENT_GET_URL) == "GURL"
    ensures CodeText(KEY_DIRECT_OBJECT) == "----"
  {
  }

  /**
   * The nine IDs are pairwise distinct (so the classifier's match is
   * unambiguous) and none of them is 0 (so the null-event result `Unknown(0)`
   * never collides with a known kind).
   */
  lemma KnownIdsDistinctAndNonZero()
    ensures |KNOWN_EVENT_IDS| == 9
    ensures forall i, j :: 0 <= i < j < |KNOWN_EVENT_IDS| ==> KNOWN_EVENT_IDS[i] != KNOWN_EVENT_IDS[j]
    ensures 0 !in KNOWN_EVENT_IDS
  {
  }

  /** The two accepted event classes differ, and the internet class shares its code with GetURL. */
  lemma ClassConstants()
    ensures EVENT_CLASS_CORE != EVENT_CLASS_INTERNET
    ensures EVENT_CLASS_INTERNET == EVENT_GET_URL
  {
  }
}
