# Emergency-number validator and seller-record assembly, in Dafny

This project models the two pieces of logic in the repository that can be stated
precisely, and proves properties of them.

- **`validateNumber`** (`scripts/voice-call-validator.js`) decides whether a voice
  call may be placed to a phone number. It refuses a missing input and short
  codes. It also refuses full numbers on a blocklist and numbers that end in an
  emergency code with at most three digits in front of it. Any other number is
  allowed, with a warning when it lacks the leading `+` of the ITU-T E.164
  international format. Module `VoiceCallValidator` models it as pure
  functions. `Validate` is the function itself. `Normalize`, `StripPlus` and
  `Digits` are the character filters. `FirstBlockingIndex` is the
  early-exit search over the emergency codes. `ReasonText` renders the
  refusal messages.
- **`extract_seller_info`** (`lib/seller_info.py`) fetches a product page and
  builds a seller dictionary in place, in six guarded steps: name,
  verification, years as supplier, country, company-profile link and contact
  channels. Module `SellerInfo` makes the fetch a `Fetch` value. Each
  BeautifulSoup query becomes a field of `Page`: the first element or text node
  the query would find, or `None`. The class `SellerDict` is the dictionary,
  with one method per step. `SellerRecordOf` states the finished record field
  by field. The method `ExtractSellerInfo` runs the steps in the source's
  order and is proved to return exactly that record. Python's `str.strip`,
  `Tag.get_text(strip=True)`, the `(\d+)\s*YRS` capture and the href
  normalisation are modelled as functions, each with its characterising lemmas.

Three details of the seller record that the model keeps as the code has them:

- A country from a bare text node is stored verbatim, while a country span's
  text is stripped (lib/seller_info.py:80-82).
- The verification step always writes its field, so `'Unknown'` never survives
  it: a page without a verified span gives `'Unverified'`
  (lib/seller_info.py:57-62).
- `years` is the text `"<digits> years"` built from the captured digits
  (lib/seller_info.py:72).

The shared module `Strings` holds the ASCII-digit test and the prefix test
that both models use; `Wrappers` holds `Option`.

Two consequences of the constants that the proofs make explicit:

- The full-number blocklist branch is dead. Every entry has at most five
  digits, and only numbers with at least seven digits reach it. The numbers on
  the blocklist are still refused, by the length rule.
- Once seven digits are required, the suffix rule can only fire on `116117`,
  and only for numbers of 7 to 9 digits.

## Model

| member | source | states |
|---|---|---|
| `VoiceCallValidator.Validate` | scripts/voice-call-validator.js:51-101 | The verdict is "No phone number provided" with no `number` exactly when the input is missing, not a string or empty. A non-empty string with fewer than 7 digits is refused as too short, reporting its digit count; a "too short" refusal only ever happens that way. With at least 7 digits ending in `116117` and at most 9 digits, it is refused as matching the emergency pattern `116117`; with at least 7 digits and no such suffix it is allowed. Every refusal other than the missing-input one carries the input as `number`. No input is refused as a known emergency number, and a suffix refusal always names `116117`. An allowed verdict has the input as `number`, `normalized` equal to the digits-and-`+` filter of the input, at least 7 digits and no `116117` suffix match. `warnings` is absent exactly when the input starts with `+`; otherwise it is exactly the one E.164 message. |
| `VoiceCallValidator.Filter` | scripts/voice-call-validator.js:57-58 | A `replace` with a character class keeps only characters that pass the test and never lengthens the string. |
| `VoiceCallValidator.FilterMembers` | scripts/voice-call-validator.js:57-58 | A character occurs in the filtered string exactly when it occurs in the input and passes the test. |
| `VoiceCallValidator.Normalize` | scripts/voice-call-validator.js:57 | `normalized` is no longer than the input, and a character occurs in it exactly when it occurs in the input and is a digit or `+`. |
| `VoiceCallValidator.StripPlus` | scripts/voice-call-validator.js:58 | `digitsOnly` is no longer than `normalized`, and a character occurs in it exactly when it occurs in `normalized` and is not `+`. |
| `VoiceCallValidator.FilterAppend` | scripts/voice-call-validator.js:57-58 | Filtering a concatenation filters each part. With the one-character case, this makes the result exactly the kept characters in their original order. |
| `VoiceCallValidator.FilterFilter` | scripts/voice-call-validator.js:57-58 | Two successive filters keep exactly what passes both tests. |
| `VoiceCallValidator.FilterKeepsAll` | scripts/voice-call-validator.js:57-58 | A string whose characters all pass is unchanged by the filter. |
| `VoiceCallValidator.DigitsOnlyIsDigits` | scripts/voice-call-validator.js:57-58 | `digitsOnly`, which is `+` removed from `normalized`, is exactly the ASCII digits of the input in order. |
| `VoiceCallValidator.NormalizeIdempotent` | scripts/voice-call-validator.js:57 | Normalising a normalised number changes nothing. |
| `VoiceCallValidator.DigitsIdempotent` | scripts/voice-call-validator.js:58 | Keeping only the digits is idempotent. |
| `VoiceCallValidator.DigitsOfNormalized` | scripts/voice-call-validator.js:57-58 | Normalisation keeps every digit. |
| `VoiceCallValidator.FirstBlockingIndex` | scripts/voice-call-validator.js:79-87 | The loop returns on the first emergency code that `digitsOnly` ends with, with at most 3 digits in front of it. No earlier code matches. When it runs to completion, no code matches. |
| `VoiceCallValidator.EmergencyCodesAreShortButOne` | scripts/voice-call-validator.js:13-30 | Every emergency code has at most 3 digits, except `116117`. |
| `VoiceCallValidator.SuffixRuleOnlyLongCode` | scripts/voice-call-validator.js:79-87 | For at least 7 digits, the suffix rule fires if and only if the digits end in `116117` and number at most 9. When it fires, the code it reports is `116117`. |
| `VoiceCallValidator.BlockedNumbersAreShort` | scripts/voice-call-validator.js:32-49 | Every blocklist entry has at most 5 digits, so the check at line 70 never succeeds after the length gate. |
| `VoiceCallValidator.DecimalString` | scripts/voice-call-validator.js:64 | The interpolated digit count is a non-empty string of decimal digits with no leading zero. |
| `VoiceCallValidator.DecimalRoundTrip` | scripts/voice-call-validator.js:64 | Reading the printed count back as a decimal number gives the count. |
| `VoiceCallValidator.ReasonText` | scripts/voice-call-validator.js:53-83 | A refusal message starts with "Blocked: " exactly for the known-number and pattern rules. A "too short" message has the decimal digit count right after "Number too short (". A pattern message has the code between "Blocked: Matches emergency pattern (" and the closing parenthesis. |
| `VoiceCallValidator.TooShortTextInjective` | scripts/voice-call-validator.js:64 | Two "too short" messages are equal only for the same digit count. |
| `VoiceCallValidator.PatternTextInjective` | scripts/voice-call-validator.js:83 | Two "emergency pattern" messages are equal only for the same code. |
| `VoiceCallValidator.ReasonTextInjective` | scripts/voice-call-validator.js:52-87 | Equal refusal messages come from equal reasons, so the message identifies the rule, the digit count or the code. |
| `VoiceCallValidator.AllowedIff` | scripts/voice-call-validator.js:61-100 | A string is allowed if and only if it has at least 7 digits and does not end in `116117` with at most 9 digits. |
| `VoiceCallValidator.VerdictDependsOnlyOnDigits` | scripts/voice-call-validator.js:57-88 | Two non-empty strings with the same digits are both allowed or both refused, and a refusal gives the same reason for both. |
| `VoiceCallValidator.UsageExampleAllowed` | scripts/voice-call-validator.js:5-7 | The usage comment's `+14155551234` is allowed as written, with no warning. |
| `VoiceCallValidator.ShortCodeExample` | scripts/voice-call-validator.js:61-67 | `911` is refused as too short, reporting 3 digits. |
| `SellerInfo.LStrip` | lib/seller_info.py:110 | The result is a suffix of the input. Everything removed is whitespace, and the result does not start with whitespace. |
| `SellerInfo.RStrip` | lib/seller_info.py:110 | The result is a prefix of the input. Everything removed is whitespace, and the result does not end with whitespace. |
| `SellerInfo.Strip` | lib/seller_info.py:110-114 | The stripped text neither starts nor ends with whitespace. |
| `SellerInfo.StripPadded` | lib/seller_info.py:110-114 | `strip` removes exactly the surrounding whitespace: a padded text with no outer whitespace strips back to itself. |
| `SellerInfo.StripIdempotent` | lib/seller_info.py:110-114 | Stripping twice is the same as stripping once. |
| `SellerInfo.GetText` | lib/seller_info.py:52 | `get_text(strip=True)` yields text with no surrounding whitespace. |
| `SellerInfo.GetTextOneString` | lib/seller_info.py:48-52 | For an element with one string, the stored name is that string with its surrounding whitespace removed. |
| `SellerInfo.DigitRunEnd` | lib/seller_info.py:70 | Gives the end of the maximal digit run starting at a position. |
| `SellerInfo.SpaceRunEnd` | lib/seller_info.py:70 | Gives the end of the maximal whitespace run starting at a position. |
| `SellerInfo.MatchIsGreedy` | lib/seller_info.py:70 | Any match of `(\d+)\s*YRS` takes the whole digit run and all the whitespace after it, so a match starts at a position exactly when the greedy one does. |
| `SellerInfo.FirstMatchFrom` | lib/seller_info.py:70 | The search returns the leftmost position at which a match starts. No earlier position starts one. |
| `SellerInfo.YearsDigits` | lib/seller_info.py:70-72 | A capture is a non-empty run of digits. |
| `SellerInfo.YearsDigitsIsLeftmostMatch` | lib/seller_info.py:70-72 | If some match has no match starting before it, the capture is that match's digit group. |
| `SellerInfo.YearsDigitsNone` | lib/seller_info.py:70-71 | There is no capture exactly when the text has no match at all. |
| `SellerInfo.NormalizeHref` | lib/seller_info.py:88-96 | A protocol-relative `//` link gets `https:`. A site-relative `/` link gets `https://www.alibaba.com`. Any other link is returned unchanged. The result is the href with one of these three prefixes and never starts with `/`. |
| `SellerInfo.NormalizeHrefIdempotent` | lib/seller_info.py:90-96 | Normalising a normalised link changes nothing. |
| `SellerInfo.NameFound` | lib/seller_info.py:47-52 | A name is found exactly when the company-name anchor or div exists. It is the anchor's `get_text(strip=True)` when the anchor exists, else the div's, and has no outer whitespace. |
| `SellerInfo.VerificationFound` | lib/seller_info.py:57-62 | The status is `'Verified'` exactly when a verified span exists, and `'Unverified'` otherwise. |
| `SellerInfo.YearsFound` | lib/seller_info.py:67-72 | A label is found exactly when the text node is truthy and has a `(\d+)\s*YRS` capture. The label is the captured digits followed by `" years"`. |
| `SellerInfo.CountryFound` | lib/seller_info.py:77-82 | A country is found exactly when a country span exists or the country text node is truthy. A span gives its stripped text; otherwise the text node is taken verbatim. |
| `SellerInfo.ProfileFound` | lib/seller_info.py:87-96 | A profile link is found exactly when the company link exists and has an `href`. It is the normalised href, which never starts with `/`. |
| `SellerInfo.ContactUrlFound` | lib/seller_info.py:103-105 | A contact URL is found exactly when the contact anchor exists. It is the anchor's `href`, or `''` when the anchor has none. |
| `SellerInfo.StrippedText` | lib/seller_info.py:108-114 | A WhatsApp or WeChat text is stored exactly when it is truthy, and the stored value is its `strip()`. |
| `SellerInfo.WithContacts` | lib/seller_info.py:101-117 | The contact step keeps every existing key and adds only `contact_url`, `whatsapp` and `wechat`, each exactly when its lookup succeeds. `contact_url` becomes the anchor's `href` or `''`. `whatsapp` and `wechat` become the stripped texts. A channel whose lookup fails keeps its old value, and other keys are untouched. |
| `SellerInfo.SellerRecordOf` | lib/seller_info.py:25-125 | A failed fetch gives a record with only `error`, which is `'Failed to fetch page: '` plus the message, and `url`. A successful fetch gives a record with the input `url` and the fixed note. Each field has the value its step finds, or its default when the step finds nothing. The name is the anchor's text, else the div's, else `'Unknown'`. The status is `'Verified'` exactly when a verified span exists, and `'Unverified'` otherwise. `years` is `"<digits> years"` from a truthy text with a capture, else `'Unknown'`. The country is the span's stripped text, else the truthy text node verbatim, else `'Unknown'`. The profile link is the normalised href when the company link has one, else `None`, and never starts with `/`. The contact keys come only from the three channels, each present exactly when its lookup succeeds. `contact_url` is the href or `''`, and the WhatsApp and WeChat values are the stripped texts. |
| `SellerInfo.NothingFoundKeepsDefaults` | lib/seller_info.py:36-64 | On a page where no query finds anything, every field keeps its default, except that the status becomes `'Unverified'`. |
| `SellerInfo.AcmeNameIsTrimmed` | lib/seller_info.py:48-52 | A company-name element around `" Acme Co "` yields the name `"Acme Co"`. |
| `SellerInfo.FiveYrsIsFiveYears` | lib/seller_info.py:68-72 | The text `"5 YRS"` yields `"5 years"`. |
| `SellerInfo.ProfileHrefExamples` | lib/seller_info.py:90-96 | `/company/12345` becomes `https://www.alibaba.com/company/12345`, and `//foo.com/x` becomes `https://foo.com/x`. |
| `SellerInfo.SellerDict.constructor` | lib/seller_info.py:36-44 | The initial dictionary has the input url and `'Unknown'` name, verification, years and country. It has no profile link, an empty contact map and no note yet. |
| `SellerInfo.SellerDict.ExtractName` | lib/seller_info.py:46-54 | The name becomes the stripped text of the company-name anchor, else of the company-name div. If neither exists it is unchanged. No other field changes. |
| `SellerInfo.SellerDict.ExtractVerification` | lib/seller_info.py:56-64 | The status becomes `'Verified'` or `'Unverified'` from the presence of a verified span. No other field changes. |
| `SellerInfo.SellerDict.ExtractYears` | lib/seller_info.py:66-74 | `years` becomes `"<digits> years"` when the text is truthy and has a capture; otherwise it is unchanged. No other field changes. |
| `SellerInfo.SellerDict.ExtractCountry` | lib/seller_info.py:76-84 | The country becomes the stripped text of the country span, else the truthy country text node verbatim. Otherwise it is unchanged. No other field changes. |
| `SellerInfo.SellerDict.ExtractProfileUrl` | lib/seller_info.py:86-98 | The profile link becomes the normalised href of the company link. If there is no link, or the link has no href (the swallowed exception), it is unchanged. No other field changes. |
| `SellerInfo.SellerDict.ExtractContact` | lib/seller_info.py:100-117 | The contact map becomes `WithContacts` of the old map. No other field changes. |
| `SellerInfo.SellerDict.AddNote` | lib/seller_info.py:119-123 | The note becomes the fixed advisory text. No other field changes. |
| `SellerInfo.SellerDict.Snapshot` | lib/seller_info.py:125 | The returned dictionary is a seller record holding every field of the dictionary as it stands. From the dictionary's invariant, its contact keys are among the three channels and its status is one of `'Unknown'`, `'Verified'` and `'Unverified'`. |
| `SellerInfo.ExtractSellerInfo` | lib/seller_info.py:10-125 | The steps run in the source's order on a fresh dictionary and return exactly `SellerRecordOf` of the url and the fetch outcome. |

## Left out

- The HTTP request in `extract_seller_info`: `requests.get` with its user agent and 10-second timeout, and `raise_for_status`. These become the `Fetch` input, and the exception text becomes its `message`.
- BeautifulSoup parsing and the regular-expression element queries (`soup.find` with `re.compile` class, href and text patterns). Each query is an abstract input in `Page`. The model does not check that a given element really matches its pattern.
- The `except: pass` blocks. With the queries abstracted, the only exception a step can still raise is a company link without an `href`, where `href.startswith` fails. That one is modelled: the profile link stays `None`.
- `YearsDigits`: Python's `\d` also matches non-ASCII decimal digits. The model reads ASCII digits only.
- Key order of the Python dictionaries (the `contact` entries and the trailing `note`). Dafny maps and records have no order.
- `get_chat_instructions`: it only returns constant prose.
- The command-line block of the validator: `process.argv`, console output and `process.exit`.
- JavaScript truthiness of non-string inputs. `0`, `false`, `null` and objects all reach the same refusal, so `PhoneArg` only distinguishes missing, non-string and string.
- lib/sheets_sync.py is not part of this model. It is a client for a remote spreadsheet API and an external command-line tool, with no logic beyond the sequence of calls.
