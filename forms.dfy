/** The license-number rule of the taxi service's driver forms: the field hook
    `clean_license_number` shared by the driver-creation and license-update
    forms. It returns the submitted license number unchanged, or fails with
    one of three fixed validation messages, checking length, then prefix,
    then suffix, and reporting only the first rule that fails. */
module Forms {
  import opened PyStr
  import opened Pattern

  /** The three validation failures the hook can raise. */
  datatype LicenseError = WrongLength | PrefixNotUppercase | SuffixNotDigits

  /** The outcome of a field hook: the cleaned value, or a field error. */
  datatype Result<T> = Ok(value: T) | Err(error: LicenseError)

  /** Key of the license number in the form's cleaned data. */
  const LicenseField: string := "license_number"

  /** A license number is three upper-case letters followed by five digits. */
  const LicenseLength: nat := 8
  const PrefixLength: nat := 3
  const SuffixLength: nat := LicenseLength - PrefixLength

  /** The user-facing text of each validation failure. */
  function Message(e: LicenseError): (m: string)
    ensures |m| > 0
  {
    match e
    case WrongLength =>
      "The license number must be exactly 8 characters long."
    case PrefixNotUppercase =>
      "The first three characters of the license number must be uppercase letters."
    case SuffixNotDigits =>
      "The last five characters of the license number must be digits."
  }

  /** Different failures carry different messages, so the user can tell which rule failed. */
  lemma MessagesDistinct(e1: LicenseError, e2: LicenseError)
    ensures Message(e1) == Message(e2) ==> e1 == e2
  {
  }

  /** The checks of `clean_license_number` on the submitted value, in the
      order the hook applies them: length, then `isupper` and `isalpha` on the
      first three characters, then `isdigit` on the rest. */
  function ValidateLicenseNumber(s: string): (r: Result<string>)
    ensures r.Ok? ==> r.value == s
    ensures r == Err(WrongLength) <==> |s| != LicenseLength
  {
    if |s| != LicenseLength then Err(WrongLength)
    else if !IsUpper(s[..PrefixLength]) || !IsAlpha(s[..PrefixLength]) then Err(PrefixNotUppercase)
    else if !IsDigit(s[PrefixLength..]) then Err(SuffixNotDigits)
    else Ok(s)
  }

  /** The hook itself: reads the license number from the cleaned data (which
      it does not change) and validates it. The field must be present. */
  function CleanLicenseNumber(cleanedData: map<string, string>): (r: Result<string>)
    requires LicenseField in cleanedData
    ensures r.Ok? ==> r.value == cleanedData[LicenseField]
    ensures r.Ok? <==> Matches(LicensePattern, cleanedData[LicenseField])
  {
    Characterisation(cleanedData[LicenseField]);
    ValidateLicenseNumber(cleanedData[LicenseField])
  }

  /** Once the length check passes the two slices have 3 and 5 characters, so
      neither Python check runs on an empty string, and each reduces to its
      per-character test. */
  lemma SlicesNonEmpty(s: string)
    requires |s| == LicenseLength
    ensures |s[..PrefixLength]| == PrefixLength && |s[PrefixLength..]| == SuffixLength
    ensures IsUpper(s[..PrefixLength]) && IsAlpha(s[..PrefixLength]) <==> AllUpper(s[..PrefixLength])
    ensures IsDigit(s[PrefixLength..]) <==> AllDigits(s[PrefixLength..])
  {
    UpperAndAlphaIffUpperLetters(s[..PrefixLength]);
  }

  /** Every input gets exactly one outcome, and it is decided by the first
      rule, in the order length, prefix, suffix, that the input breaks. */
  lemma OutcomeClassification(s: string)
    ensures ValidateLicenseNumber(s) == Err(WrongLength) <==> |s| != LicenseLength
    ensures ValidateLicenseNumber(s) == Err(PrefixNotUppercase) <==>
      |s| == LicenseLength && !AllUpper(s[..PrefixLength])
    ensures ValidateLicenseNumber(s) == Err(SuffixNotDigits) <==>
      |s| == LicenseLength && AllUpper(s[..PrefixLength]) && !AllDigits(s[PrefixLength..])
    ensures ValidateLicenseNumber(s) == Ok(s) <==>
      |s| == LicenseLength && AllUpper(s[..PrefixLength]) && AllDigits(s[PrefixLength..])
  {
    if |s| == LicenseLength {
      SlicesNonEmpty(s);
    }
  }

  /** The validator accepts exactly the strings matching `[A-Z]{3}[0-9]{5}`. */
  lemma Characterisation(s: string)
    ensures ValidateLicenseNumber(s).Ok? <==> Matches(LicensePattern, s)
  {
    OutcomeClassification(s);
    MatchesLicensePatternIff(s);
  }

  /** Any input whose length is not 8, the empty string included, fails the
      length rule whatever its characters are. A named corollary of the second
      `ensures` of `ValidateLicenseNumber`. */
  lemma WrongLengthRejected(s: string)
    requires |s| != LicenseLength
    ensures ValidateLicenseNumber(s) == Err(WrongLength)
  {
  }

  /** An eight-character input with any character outside `A`..`Z` (a
      lower-case letter, a digit, a symbol, a non-ASCII letter) among its
      first three characters fails the prefix rule, whatever its suffix. */
  lemma PrefixRejected(s: string, i: nat)
    requires |s| == LicenseLength && i < PrefixLength && !IsAsciiUpper(s[i])
    ensures ValidateLicenseNumber(s) == Err(PrefixNotUppercase)
  {
  }

  /** An eight-character input whose prefix is in `A`..`Z` and which has a
      character outside `0`..`9` among its last five fails the suffix rule. */
  lemma SuffixRejected(s: string, i: nat)
    requires |s| == LicenseLength && AllUpper(s[..PrefixLength])
    requires PrefixLength <= i < LicenseLength && !IsAsciiDigit(s[i])
    ensures ValidateLicenseNumber(s) == Err(SuffixNotDigits)
  {
    assert s[PrefixLength..][i - PrefixLength] == s[i];
    OutcomeClassification(s);
  }

  /** The worked examples of the rule. */
  lemma Examples()
    ensures ValidateLicenseNumber("ABC12345") == Ok("ABC12345")
    ensures ValidateLicenseNumber("AB1234567") == Err(WrongLength)
    ensures ValidateLicenseNumber("") == Err(WrongLength)
    ensures ValidateLicenseNumber("abc12345") == Err(PrefixNotUppercase)
    ensures ValidateLicenseNumber("Abc12345") == Err(PrefixNotUppercase)
    ensures ValidateLicenseNumber("ABC1234X") == Err(SuffixNotDigits)
  {
    PrefixRejected("abc12345", 0);
    PrefixRejected("Abc12345", 1);
    SuffixRejected("ABC1234X", 7);
    OutcomeClassification("ABC12345");
  }
}
