/** `truncateText` of src/scripts/utils/index.js, which shortens story descriptions for the cards. */
module TextUtils {
  /** The default `maxLength`. */
  const DEFAULT_MAX_LENGTH: nat := 150
  const ELLIPSIS: string := "..."

  /**
   * `truncateText(text, maxLength)`: the text when it fits, else its first
   * `maxLength` characters and an ellipsis.
   */
  function TruncateText(text: string, maxLength: nat): (r: string)
    ensures |text| <= maxLength ==> r == text
    ensures |text| > maxLength ==> |r| == maxLength + 3 && r[..maxLength] == text[..maxLength] && r[maxLength..] == ELLIPSIS
    ensures |r| <= maxLength + 3
  {
    if |text| <= maxLength then text else text[..maxLength] + ELLIPSIS
  }

  /** `truncateText(text)`, with the default length. */
  function TruncateTextDefault(text: string): (r: string)
    ensures |r| <= 153
    ensures |text| <= 150 ==> r == text
    ensures |text| > 150 ==> r == text[..150] + "..."
  {
    TruncateText(text, DEFAULT_MAX_LENGTH)
  }

  /** Every result starts with a prefix of the text. */
  lemma TruncatePrefix(text: string, maxLength: nat)
    ensures var r := TruncateText(text, maxLength);
      var n := if |text| <= maxLength then |text| else maxLength;
      r[..n] == text[..n]
  {
  }

  /** Truncating a truncated text changes nothing more. */
  lemma TruncateIdempotent(text: string, maxLength: nat)
    ensures TruncateText(TruncateText(text, maxLength), maxLength) == TruncateText(text, maxLength)
  {
    var r := TruncateText(text, maxLength);
    if |text| > maxLength {
      assert r[..maxLength] == text[..maxLength];
    }
  }
}
