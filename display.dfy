/**
 * ANSI colour codes and the one text-decoration function of DisplayUtil:
 * `color(code, text, noColor)` puts `code` before
 * `text` and `RESET` after it, unless colour is off.
 */
module Display {

  const Reset: string := "\U{1B}[0m"
  const Green: string := "\U{1B}[32m"
  const Red: string := "\U{1B}[31m"
  const Blue: string := "\U{1B}[34m"
  const Yellow: string := "\U{1B}[33m"

  function Color(code: string, text: string, noColor: bool): (r: string)
    ensures noColor ==> r == text
    ensures !noColor ==> r == code + text + Reset
  {
    if noColor then text else code + text + Reset
  }

  /** The decorated text always holds the plain text, right after the code. */
  lemma ColorContainsText(code: string, text: string, noColor: bool)
    ensures var r := Color(code, text, noColor);
      var start := if noColor then 0 else |code|;
      start + |text| <= |r| && r[start..start + |text|] == text
  {
    if !noColor {
      var r := code + text + Reset;
      assert r[|code|..|code| + |text|] == text;
    }
  }
}
