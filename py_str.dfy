/** ASCII models of the Python string predicates `str.isalpha`, `str.isupper`
    and `str.isdigit`, as used by the license-number validator.

    Python's own predicates are Unicode-aware; here every character outside
    ASCII is treated as neither a letter, nor cased, nor a digit. Within ASCII
    the definitions follow Python's documented meaning, including its two
    traps: `isalpha` and `isdigit` are false on the empty string, and `isupper`
    asks only that there is at least one cased character and no lower-case one
    (so `"A1"` is upper, `"12"` is not). */
module PyStr {

  predicate IsAsciiUpper(c: char) { 'A' <= c <= 'Z' }

  predicate IsAsciiLower(c: char) { 'a' <= c <= 'z' }

  /** A cased (and alphabetic) character. */
  predicate IsAsciiLetter(c: char) { IsAsciiUpper(c) || IsAsciiLower(c) }

  predicate IsAsciiDigit(c: char) { '0' <= c <= '9' }

  /** `s.isalpha()`: non-empty and every character is alphabetic. */
  predicate IsAlpha(s: string) {
    |s| > 0 && forall i :: 0 <= i < |s| ==> IsAsciiLetter(s[i])
  }

  /** `s.isupper()`: at least one cased character, and no cased character is lower case. */
  predicate IsUpper(s: string) {
    && (exists i :: 0 <= i < |s| && IsAsciiLetter(s[i]))
    && (forall i :: 0 <= i < |s| ==> !IsAsciiLower(s[i]))
  }

  /** `s.isdigit()`: non-empty and every character is a decimal digit. */
  predicate IsDigit(s: string) {
    |s| > 0 && forall i :: 0 <= i < |s| ==> IsAsciiDigit(s[i])
  }

  /** Every character of `s` is in `A`..`Z` (true of the empty string). */
  predicate AllUpper(s: string) {
    forall i :: 0 <= i < |s| ==> IsAsciiUpper(s[i])
  }

  /** Every character of `s` is in `0`..`9` (true of the empty string). */
  predicate AllDigits(s: string) {
    forall i :: 0 <= i < |s| ==> IsAsciiDigit(s[i])
  }

  /** The two Python checks on the prefix together accept exactly the
      non-empty strings of upper-case letters: `isalpha` rules out digits and
      symbols that `isupper` lets through, and `isupper` rules out lower case. */
  lemma UpperAndAlphaIffUpperLetters(s: string)
    ensures IsUpper(s) && IsAlpha(s) <==> |s| > 0 && AllUpper(s)
  {
    if |s| > 0 && AllUpper(s) {
      assert IsAsciiLetter(s[0]);
    }
  }
}
