# License-number validation of the taxi service's driver forms

The taxi-fleet service has two forms for driver accounts: one creates a driver and one updates a driver's license. Both use one field hook, `clean_license_number`. The hook reads the submitted license number from the form's cleaned data and checks three rules, in this order:

1. it has exactly 8 characters;
2. its first three characters are upper-case letters (Python's `isupper()` and `isalpha()` on the slice `[:3]`);
3. its last five characters are digits (`isdigit()` on the slice `[3:]`).

The first rule that fails raises a validation error with a fixed message. If no rule fails, the hook returns the value unchanged.

The model has three modules:

- `PyStr` (`py_str.dfy`) models Python's `str.isalpha`, `str.isupper` and `str.isdigit` on ASCII. It keeps their edge cases: the empty string is neither alphabetic nor a digit string, and `isupper` only needs one cased character and no lower-case one.
- `Pattern` (`pattern.dfy`) is a reference definition of the format that does not depend on the validator. It is a matcher for sequences of character classes, and the license pattern is `[A-Z]{3}[0-9]{5}`.
- `Forms` (`forms.dfy`) holds the hook, its three errors and their messages, and lemmas relating the hook's outcome to the rules and to the pattern.

The error is a `Result` value, `Err(WrongLength | PrefixNotUppercase | SuffixNotDigits)`. It stands in for raising `ValidationError`, and `Message` gives each error's exact text.

## Model

| member | source | states |
|---|---|---|
| `PyStr.UpperAndAlphaIffUpperLetters` | taxi/forms.py:16-17 | `isupper()` and `isalpha()` both hold exactly when the string is non-empty and every character is in `A`..`Z`. `isalpha` rejects the digits and symbols that `isupper` lets through, and `isupper` rejects lower case |
| `Pattern.MatchesLicensePatternIff` | taxi/forms.py:12-26 | a string matches `[A-Z]{3}[0-9]{5}` exactly when it has length 8, its first three characters are upper-case letters and its last five are digits |
| `Forms.Message` | taxi/forms.py:13-26 | the text of each validation error. The contract only guarantees a non-empty text. The exact wording is in the body, matching the source's literals, and `Forms.MessagesDistinct` proves the three texts differ |
| `Forms.MessagesDistinct` | taxi/forms.py:13-26 | the three error messages are pairwise different, so the message tells which rule failed |
| `Forms.ValidateLicenseNumber` | taxi/forms.py:12-27 | on success the result is the input itself, with no trimming or case folding; the result is the length error exactly when the length is not 8 |
| `Forms.CleanLicenseNumber` | taxi/forms.py:10-27 | the hook reads `license_number` from the cleaned data. It succeeds exactly when that value matches `[A-Z]{3}[0-9]{5}`, and then returns the value unchanged |
| `Forms.SlicesNonEmpty` | taxi/forms.py:12-22 | after the length check passes, the prefix slice has 3 characters and the suffix slice has 5. So no Python check runs on an empty slice, and each check reduces to its per-character test |
| `Forms.OutcomeClassification` | taxi/forms.py:12-26 | exactly one outcome per input, decided by the first failing rule. The length error appears iff the length is not 8. The prefix error appears iff the length is 8 and the prefix is not all upper case. The suffix error appears iff the length is 8, the prefix is upper case and the suffix is not all digits. Success `Ok(s)` happens iff all three rules hold |
| `Forms.Characterisation` | taxi/forms.py:12-27 | the validator accepts a string if and only if it matches `[A-Z]{3}[0-9]{5}` |
| `Forms.WrongLengthRejected` | taxi/forms.py:12-15 | any input whose length is not 8, the empty string included, gets the length error whatever its characters. This restates one direction of the `Forms.ValidateLicenseNumber` contract under the rule's own name |
| `Forms.PrefixRejected` | taxi/forms.py:16-21 | an 8-character input gets the prefix error, whatever its suffix, if any of its first three characters is outside `A`..`Z`. That character can be lower case, a digit, a symbol or a non-ASCII letter |
| `Forms.SuffixRejected` | taxi/forms.py:22-26 | an 8-character input whose first three characters are in `A`..`Z` gets the suffix error if any of its last five characters is outside `0`..`9` |
| `Forms.Examples` | taxi/forms.py:12-27 | results for fixed inputs. `"ABC12345"` is accepted unchanged. `"AB1234567"` and `""` get the length error. `"abc12345"` and `"Abc12345"` get the prefix error. `"ABC1234X"` gets the suffix error |

## Left out

- The form classes `DriverCreateForm`, `DriverLicenseUpdateForm` and `CarForm` (taxi/forms.py:30-58). They only configure the web framework: field lists, a removed `password` field, and a queryset of all users. They contain no logic of their own.
- Password hashing, user creation, persistence, HTML widgets and error display. These belong to the web framework, and its code is not part of this model.
- A missing license number. `cleaned_data.get` would return `None`, and `len(None)` raises `TypeError`. `Forms.CleanLicenseNumber` therefore requires the field to be present, and the value is always a string.
- Full Unicode behaviour of `str.isalpha`, `str.isupper` and `str.isdigit`. Python also accepts non-ASCII letters (`"ÉAB12345"` passes the prefix checks) and Unicode digits such as superscripts. It also accepts a prefix that mixes uncased letters with one upper-case letter. The model treats every non-ASCII character as neither a letter, nor cased, nor a digit. So the model rejects some inputs that Python accepts, and it accepts only `[A-Z]{3}[0-9]{5}`. For non-ASCII input the reported error can differ too. Python gives `"ÉAB1234X"` the suffix error, and the model gives it the prefix error. Python accepts `"ABC1234²"`, and the model gives it the suffix error. So `Forms.OutcomeClassification`, `Forms.PrefixRejected`, `Forms.SuffixRejected`, `Forms.Characterisation`, `Forms.CleanLicenseNumber` and `Forms.SlicesNonEmpty` describe Python only on ASCII input. Every prefix or suffix statement in `Forms` reads "upper-case letter" as `A`..`Z` and "digit" as `0`..`9`.
- The exception mechanism of `ValidationError`. It is modelled as the `Err` case of a `Result`.
