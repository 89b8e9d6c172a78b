/** A reference definition of the license-number format, independent of the
    validator: a pattern is a sequence of character classes, and a string
    matches it when it has one character per class, each in its class. The
    license-number format is the pattern `[A-Z]{3}[0-9]{5}`. */
module Pattern {
  import opened PyStr

  datatype CharClass = UpperLetter | DecimalDigit

  predicate InClass(c: char, k: CharClass) {
    match k
    case UpperLetter => IsAsciiUpper(c)
    case DecimalDigit => IsAsciiDigit(c)
  }

  /** `k{n}`: the class `k` repeated `n` times. */
  function Repeat(k: CharClass, n: nat): (r: seq<CharClass>)
    ensures |r| == n
    ensures forall i :: 0 <= i < n ==> r[i] == k
  {
    if n == 0 then [] else [k] + Repeat(k, n - 1)
  }

  /** Anchored match of `s` against `pat`, consuming one character per class. */
  predicate Matches(pat: seq<CharClass>, s: string)
    decreases |pat|
  {
    if pat == [] then s == []
    else s != [] && InClass(s[0], pat[0]) && Matches(pat[1..], s[1..])
  }

  /** `[A-Z]{3}[0-9]{5}` */
  const LicensePattern: seq<CharClass> := Repeat(UpperLetter, 3) + Repeat(DecimalDigit, 5)

  /** Matching, stated position by position. */
  lemma {:induction false} MatchesIffPointwise(pat: seq<CharClass>, s: string)
    ensures Matches(pat, s) <==> |s| == |pat| && forall i :: 0 <= i < |s| ==> InClass(s[i], pat[i])
    decreases |pat|
  {
    if pat != [] && s != [] {
      MatchesIffPointwise(pat[1..], s[1..]);
      if |s| == |pat| && forall i :: 0 <= i < |s| ==> InClass(s[i], pat[i]) {
        forall i | 0 <= i < |s| - 1 ensures InClass(s[1..][i], pat[1..][i]) {
          assert InClass(s[i + 1], pat[i + 1]);
        }
      }
      if Matches(pat, s) {
        forall i | 0 <= i < |s| ensures InClass(s[i], pat[i]) {
          if i > 0 {
            assert InClass(s[1..][i - 1], pat[1..][i - 1]);
          }
        }
      }
    }
  }

  /** A string matches `[A-Z]{3}[0-9]{5}` exactly when it has eight characters,
      the first three upper-case letters and the last five digits. The counts
      are written out here, as in the pattern itself, so that this reference
      definition does not share the validator's constants. */
  lemma MatchesLicensePatternIff(s: string)
    ensures Matches(LicensePattern, s) <==> |s| == 8 && AllUpper(s[..3]) && AllDigits(s[3..])
  {
    var pat := LicensePattern;
    assert |pat| == 8;
    MatchesIffPointwise(pat, s);
    assert forall i :: 0 <= i < 3 ==> pat[i] == UpperLetter;
    assert forall i :: 3 <= i < 8 ==> pat[i] == DecimalDigit;
    if |s| == 8 && AllUpper(s[..3]) && AllDigits(s[3..]) {
      forall i | 0 <= i < 8 ensures InClass(s[i], pat[i]) {
        if i < 3 {
          assert s[..3][i] == s[i];
        } else {
          assert s[3..][i - 3] == s[i];
        }
      }
    }
  }
}
