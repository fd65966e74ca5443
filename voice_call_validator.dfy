/**
 * The emergency-number validator of scripts/voice-call-validator.js:
 * `validateNumber` decides whether an outgoing voice call may be placed to a
 * phone number, refusing short codes and anything that looks like an
 * emergency service, and warning when the number is not written in the
 * ITU-T E.164 international form (leading `+`).
 */
module VoiceCallValidator {
  import opened Wrappers
  import opened Strings

  // ---------------------------------------------------------------------------
  // Inputs, reasons and verdicts
  // ---------------------------------------------------------------------------

  /** The JavaScript value passed as `phone`: missing (`undefined`/`null`),
      some value that is not a string, or a string. */
  datatype PhoneArg = Absent | NotText | Text(s: string)

  /** Why a number was refused; `ReasonText` gives the message the source returns. */
  datatype Reason =
    | NoNumber
    | TooShort(digitCount: nat)
    | KnownEmergency
    | EmergencyPattern(code: string)

  /** The record `validateNumber` returns (`allowed` is the constructor). A
      refusal carries `number` unless the input was missing; an acceptance
      carries the input as its `number` (`phone` here), its normalised form and,
      only when there is something to say, a list of warnings. */
  datatype Verdict =
    | Blocked(reason: Reason, number: Option<string>)
    | Allowed(phone: string, normalized: string, warnings: Option<seq<string>>)

  /** Emergency codes, in the order the source's `Set` iterates them: the Set
      keeps the first occurrence of the repeated Japanese entries 110, 119, 118. */
  const EMERGENCY_NUMBERS: seq<string> := [
    "911", "933",                                  // US/Canada
    "112",                                         // EU universal
    "999", "111", "101", "105",                    // UK
    "000", "106",                                  // Australia
    "117", "118", "143", "144", "145", "147",      // Switzerland
    "110", "116117",                               // Germany
    "15", "17", "18", "114", "115", "119"          // France (and Japan's repeats)
  ]

  /** Complete numbers (country code followed by the service) refused outright. */
  const BLOCKED_FULL_NUMBERS: set<string> := {
    "1911", "44999", "44112", "41117", "41118", "41144", "41143", "49110",
    "49112", "61000", "81110", "81119", "33112", "3315", "3317", "3318"
  }

  /** Fewer digits than this is a short code. */
  const MIN_DIGITS: nat := 7

  /** How many leading digits (a country code) may precede an emergency code
      for the number still to be read as that emergency code. */
  const SUFFIX_SLACK: nat := 3

  /** The only emergency code long enough to matter once `MIN_DIGITS` holds. */
  const LONG_CODE: string := "116117"

  const E164_WARNING: string := "Number not in E.164 format (missing +)"

  // ---------------------------------------------------------------------------
  // Character filters (the two `replace` calls)
  // ---------------------------------------------------------------------------

  /** The characters `[^\d+]` does not remove. */
  predicate IsDigitOrPlus(c: char) { IsAsciiDigit(c) || c == '+' }

  predicate IsNotPlus(c: char) { c != '+' }

  /** The characters of `s` that satisfy `keep`, in their original order. */
  function Filter(keep: char -> bool, s: string): (r: string)
    ensures |r| <= |s|
    ensures forall i :: 0 <= i < |r| ==> keep(r[i])
  {
    if s == [] then []
    else (if keep(s[0]) then [s[0]] else []) + Filter(keep, s[1..])
  }

  /** A character occurs in the filtered string exactly when it occurs in the
      input and is kept. */
  lemma {:induction false} FilterMembers(keep: char -> bool, s: string)
    ensures forall c :: c in Filter(keep, s) <==> c in s && keep(c)
  {
    if s != [] {
      FilterMembers(keep, s[1..]);
      assert s == [s[0]] + s[1..];
    }
  }

  /** Filtering a concatenation filters each part: together with the one-character
      case this pins `Filter` down as "the kept characters, in order". */
  lemma {:induction false} FilterAppend(keep: char -> bool, a: string, b: string)
    ensures Filter(keep, a + b) == Filter(keep, a) + Filter(keep, b)
  {
    if a == [] {
      assert a + b == b;
    } else {
      assert (a + b)[0] == a[0] && (a + b)[1..] == a[1..] + b;
      FilterAppend(keep, a[1..], b);
    }
  }

  /** Filtering twice keeps what passes both tests. */
  lemma {:induction false} FilterFilter(p: char -> bool, q: char -> bool, both: char -> bool, s: string)
    requires forall c :: both(c) == (p(c) && q(c))
    ensures Filter(q, Filter(p, s)) == Filter(both, s)
  {
    if s != [] {
      FilterFilter(p, q, both, s[1..]);
      var c, rest := s[0], s[1..];
      assert both(c) == (p(c) && q(c));
      if p(c) {
        assert Filter(p, s) == [c] + Filter(p, rest);
        FilterAppend(q, [c], Filter(p, rest));
        assert [c][1..] == [];
        assert Filter(q, [c]) == (if q(c) then [c] else []) + Filter(q, []);
      } else {
        assert Filter(p, s) == [] + Filter(p, rest) == Filter(p, rest);
        assert Filter(both, s) == [] + Filter(both, rest) == Filter(both, rest);
      }
    }
  }

  /** A string whose every character is kept is its own filter. */
  lemma {:induction false} FilterKeepsAll(keep: char -> bool, s: string)
    requires forall i :: 0 <= i < |s| ==> keep(s[i])
    ensures Filter(keep, s) == s
  {
    if s != [] {
      FilterKeepsAll(keep, s[1..]);
    }
  }

  /** `phone.replace(/[^\d+]/g, '')`: the digits and plus signs of `s`. */
  function Normalize(s: string): (r: string)
    ensures |r| <= |s|
    ensures forall c :: c in r <==> c in s && IsDigitOrPlus(c)
  {
    FilterMembers(IsDigitOrPlus, s);
    Filter(IsDigitOrPlus, s)
  }

  /** `normalized.replace(/\+/g, '')`: `s` without its plus signs. */
  function StripPlus(s: string): (r: string)
    ensures |r| <= |s|
    ensures forall c :: c in r <==> c in s && c != '+'
  {
    FilterMembers(IsNotPlus, s);
    Filter(IsNotPlus, s)
  }

  /** The ASCII digits of `s`, in order: the reference the two replacements are
      proved against. */
  function Digits(s: string): string { Filter(IsAsciiDigit, s) }

  /** Removing `+` after removing everything but digits and `+` leaves the digits. */
  lemma DigitsOnlyIsDigits(s: string)
    ensures StripPlus(Normalize(s)) == Digits(s)
  {
    FilterFilter(IsDigitOrPlus, IsNotPlus, IsAsciiDigit, s);
  }

  /** Normalising a normalised number changes nothing. */
  lemma NormalizeIdempotent(s: string)
    ensures Normalize(Normalize(s)) == Normalize(s)
  {
    FilterKeepsAll(IsDigitOrPlus, Normalize(s));
  }

  /** Keeping the digits of the digits changes nothing. */
  lemma DigitsIdempotent(s: string)
    ensures Digits(Digits(s)) == Digits(s)
  {
    FilterKeepsAll(IsAsciiDigit, Digits(s));
  }

  /** The digits survive normalisation unchanged. */
  lemma DigitsOfNormalized(s: string)
    ensures Digits(Normalize(s)) == Digits(s)
  {
    FilterFilter(IsDigitOrPlus, IsAsciiDigit, IsAsciiDigit, s);
  }

  // ---------------------------------------------------------------------------
  // The emergency-suffix search (the `for ... of` loop)
  // ---------------------------------------------------------------------------

  /** JavaScript's `s.endsWith(suffix)`. */
  predicate EndsWith(s: string, suffix: string) {
    |suffix| <= |s| && s[|s| - |suffix|..] == suffix
  }

  /** The loop's test: `digits` ends with `code` and has at most
      `SUFFIX_SLACK` digits in front of it. */
  predicate PatternBlocks(digits: string, code: string) {
    EndsWith(digits, code) && |digits| <= |code| + SUFFIX_SLACK
  }

  /** Index of the first code the loop returns on, or `|codes|` when the loop
      runs to completion. */
  function FirstBlockingIndex(digits: string, codes: seq<string>): (k: nat)
    ensures k <= |codes|
    ensures forall j :: 0 <= j < k ==> !PatternBlocks(digits, codes[j])
    ensures k < |codes| ==> PatternBlocks(digits, codes[k])
  {
    if codes == [] then 0
    else if PatternBlocks(digits, codes[0]) then 0
    else 1 + FirstBlockingIndex(digits, codes[1..])
  }

  /** Every emergency code has at most three digits, except `LONG_CODE`. */
  lemma EmergencyCodesAreShortButOne()
    ensures forall i :: 0 <= i < |EMERGENCY_NUMBERS| ==>
      |EMERGENCY_NUMBERS[i]| <= 3 || EMERGENCY_NUMBERS[i] == LONG_CODE
    ensures EMERGENCY_NUMBERS[16] == LONG_CODE
  {
  }

  /** Once a number has `MIN_DIGITS` digits the suffix rule can only fire on
      `LONG_CODE`, and it does exactly for 7 to 9 digits ending in it. */
  lemma SuffixRuleOnlyLongCode(digits: string)
    requires |digits| >= MIN_DIGITS
    ensures FirstBlockingIndex(digits, EMERGENCY_NUMBERS) < |EMERGENCY_NUMBERS| <==>
      EndsWith(digits, LONG_CODE) && |digits| <= |LONG_CODE| + SUFFIX_SLACK
    ensures FirstBlockingIndex(digits, EMERGENCY_NUMBERS) < |EMERGENCY_NUMBERS| ==>
      EMERGENCY_NUMBERS[FirstBlockingIndex(digits, EMERGENCY_NUMBERS)] == LONG_CODE
  {
    EmergencyCodesAreShortButOne();
    var k := FirstBlockingIndex(digits, EMERGENCY_NUMBERS);
    if EndsWith(digits, LONG_CODE) && |digits| <= |LONG_CODE| + SUFFIX_SLACK {
      assert PatternBlocks(digits, EMERGENCY_NUMBERS[16]);
      assert k <= 16;
    }
  }

  /** Every blocklist entry has at most five digits. */
  lemma BlockedNumbersAreShort()
    ensures forall b :: b in BLOCKED_FULL_NUMBERS ==> |b| <= 5
  {
  }

  // ---------------------------------------------------------------------------
  // Messages
  // ---------------------------------------------------------------------------

  function DigitChar(d: nat): (c: char)
    requires d < 10
    ensures IsAsciiDigit(c) && c as int - '0' as int == d
  {
    ('0' as int + d) as char
  }

  /** A number as a JavaScript template literal prints it: decimal, no leading zero. */
  function DecimalString(n: nat): (r: string)
    ensures |r| >= 1
    ensures forall i :: 0 <= i < |r| ==> IsAsciiDigit(r[i])
    ensures r[0] == '0' ==> n == 0
  {
    if n < 10 then [DigitChar(n)] else DecimalString(n / 10) + [DigitChar(n % 10)]
  }

  /** The value of a string of decimal digits. */
  function DecimalValue(s: string): nat
    requires forall i :: 0 <= i < |s| ==> IsAsciiDigit(s[i])
  {
    if s == [] then 0
    else
      assert IsAsciiDigit(s[|s| - 1]);
      DecimalValue(s[..|s| - 1]) * 10 + (s[|s| - 1] as int - '0' as int)
  }

  /** Reading back the printed digit count gives the count. */
  lemma {:induction false} DecimalRoundTrip(n: nat)
    ensures DecimalValue(DecimalString(n)) == n
  {
    var r := DecimalString(n);
    if n >= 10 {
      assert r[..|r| - 1] == DecimalString(n / 10);
      DecimalRoundTrip(n / 10);
    }
  }

  const TOO_SHORT_PREFIX: string := "Number too short ("
  const PATTERN_PREFIX: string := "Blocked: Matches emergency pattern ("

  /** The `reason` string of a refusal. Only the two emergency rules say
      "Blocked: "; a "too short" message carries the digit count in decimal
      after its opening words, and a pattern message the code in parentheses. */
  function ReasonText(r: Reason): (t: string)
    ensures StartsWith(t, "Blocked: ") <==> r.KnownEmergency? || r.EmergencyPattern?
    ensures r.TooShort? ==>
      |TOO_SHORT_PREFIX| + |DecimalString(r.digitCount)| <= |t|
      && t[..|TOO_SHORT_PREFIX|] == TOO_SHORT_PREFIX
      && t[|TOO_SHORT_PREFIX|..|TOO_SHORT_PREFIX| + |DecimalString(r.digitCount)|] == DecimalString(r.digitCount)
    ensures r.EmergencyPattern? ==>
      |PATTERN_PREFIX| < |t| && t[..|PATTERN_PREFIX|] == PATTERN_PREFIX
      && t[|PATTERN_PREFIX|..|t| - 1] == r.code && t[|t| - 1] == ')'
  {
    match r
    case NoNumber =>
      var t := "No phone number provided";
      assert t[0] == 'N';
      t
    case TooShort(n) =>
      var t := TOO_SHORT_PREFIX + DecimalString(n) + " digits) - likely emergency or short code";
      assert t[0] == 'N';
      assert t[..|TOO_SHORT_PREFIX|] == TOO_SHORT_PREFIX;
      t
    case KnownEmergency => "Blocked: Known emergency number"
    case EmergencyPattern(code) =>
      var t := PATTERN_PREFIX + code + ")";
      assert t[..|PATTERN_PREFIX|] == PATTERN_PREFIX;
      assert t[..9] == PATTERN_PREFIX[..9];
      t
  }

  /** Two characters of a message that tell its kind of reason apart. */
  lemma ReasonTextMarks(r: Reason)
    ensures |ReasonText(r)| > 9
    ensures ReasonText(r)[1] == (if r.NoNumber? then 'o' else if r.TooShort? then 'u' else 'l')
    ensures r.KnownEmergency? ==> ReasonText(r)[9] == 'K'
    ensures r.EmergencyPattern? ==> ReasonText(r)[9] == 'M'
  {
    var t := ReasonText(r);
    match r
    case NoNumber =>
    case TooShort(n) =>
      assert t[1] == TOO_SHORT_PREFIX[1];
    case KnownEmergency =>
    case EmergencyPattern(code) =>
      assert t[1] == PATTERN_PREFIX[1] && t[9] == PATTERN_PREFIX[9];
  }

  /** Reading the digit count back out of a "too short" message. */
  lemma TooShortTextInjective(n: nat, m: nat)
    requires ReasonText(TooShort(n)) == ReasonText(TooShort(m))
    ensures n == m
  {
    var p := TOO_SHORT_PREFIX;
    var q := " digits) - likely emergency or short code";
    var dn, dm := DecimalString(n), DecimalString(m);
    var t := p + dn + q;
    assert t == p + dm + q;
    assert |dn| == |dm|;
    assert dn == t[|p|..|p| + |dn|];
    assert dm == t[|p|..|p| + |dm|];
    DecimalRoundTrip(n);
    DecimalRoundTrip(m);
  }

  /** Reading the emergency code back out of a pattern message. */
  lemma PatternTextInjective(code: string, other: string)
    requires ReasonText(EmergencyPattern(code)) == ReasonText(EmergencyPattern(other))
    ensures code == other
  {
    var p := PATTERN_PREFIX;
    var t := p + code + ")";
    assert t == p + other + ")";
    assert code == t[|p|..|t| - 1];
    assert other == t[|p|..|t| - 1];
  }

  /** Distinct reasons give distinct messages, so the message reports the digit
      count, or the emergency code, that caused the refusal. */
  lemma ReasonTextInjective(a: Reason, b: Reason)
    requires ReasonText(a) == ReasonText(b)
    ensures a == b
  {
    ReasonTextMarks(a);
    ReasonTextMarks(b);
    if a.TooShort? {
      TooShortTextInjective(a.digitCount, b.digitCount);
    } else if a.EmergencyPattern? {
      PatternTextInjective(a.code, b.code);
    }
  }

  // ---------------------------------------------------------------------------
  // validateNumber
  // ---------------------------------------------------------------------------

  /** `validateNumber(phone)`. */
  function Validate(phone: PhoneArg): (v: Verdict)
    ensures v == Blocked(NoNumber, None) <==> !phone.Text? || phone.s == ""
    ensures phone.Text? && phone.s != "" && |Digits(phone.s)| < MIN_DIGITS ==>
      v == Blocked(TooShort(|Digits(phone.s)|), Some(phone.s))
    ensures phone.Text? && |Digits(phone.s)| >= MIN_DIGITS && PatternBlocks(Digits(phone.s), LONG_CODE) ==>
      v == Blocked(EmergencyPattern(LONG_CODE), Some(phone.s))
    ensures phone.Text? && |Digits(phone.s)| >= MIN_DIGITS && !PatternBlocks(Digits(phone.s), LONG_CODE) ==>
      v.Allowed?
    ensures v.Blocked? && v.reason != NoNumber ==> phone.Text? && v.number == Some(phone.s)
    ensures v.Blocked? && v.reason.TooShort? ==>
      phone.Text? && v.reason.digitCount == |Digits(phone.s)| < MIN_DIGITS
    ensures v.Blocked? ==> v.reason != KnownEmergency
    ensures v.Blocked? && v.reason.EmergencyPattern? ==> v.reason.code == LONG_CODE
    ensures v.Allowed? ==>
      && phone.Text?
      && v.phone == phone.s
      && v.normalized == Normalize(phone.s)
      && |Digits(phone.s)| >= MIN_DIGITS
      && !PatternBlocks(Digits(phone.s), LONG_CODE)
    ensures v.Allowed? ==> (v.warnings.None? <==> phone.s[0] == '+')
    ensures v.Allowed? && v.warnings.Some? ==> v.warnings.value == [E164_WARNING]
  {
    if !phone.Text? || phone.s == "" then Blocked(NoNumber, None)
    else
      var number := phone.s;
      var normalized := Normalize(number);
      var digitsOnly := StripPlus(normalized);
      DigitsOnlyIsDigits(number);
      if |digitsOnly| < MIN_DIGITS then
        Blocked(TooShort(|digitsOnly|), Some(number))
      else if digitsOnly in BLOCKED_FULL_NUMBERS then
        BlockedNumbersAreShort();
        Blocked(KnownEmergency, Some(number))
      else
        var k := FirstBlockingIndex(digitsOnly, EMERGENCY_NUMBERS);
        SuffixRuleOnlyLongCode(digitsOnly);
        if k < |EMERGENCY_NUMBERS| then
          Blocked(EmergencyPattern(EMERGENCY_NUMBERS[k]), Some(number))
        else
          var warnings := if StartsWith(number, "+") then None else Some([E164_WARNING]);
          Allowed(number, normalized, warnings)
  }

  /** The decision in one line: a number is allowed exactly when it has at least
      `MIN_DIGITS` digits and the suffix rule does not catch it on `LONG_CODE`. */
  lemma AllowedIff(s: string)
    ensures Validate(Text(s)).Allowed? <==>
      |Digits(s)| >= MIN_DIGITS && !PatternBlocks(Digits(s), LONG_CODE)
  {
    if s != [] {
      DigitsOnlyIsDigits(s);
      if |Digits(s)| >= MIN_DIGITS {
        SuffixRuleOnlyLongCode(Digits(s));
      }
    }
  }

  /** The verdict depends on the digits alone: two non-empty strings with the
      same digits are allowed or refused together, and for the same reason. */
  lemma VerdictDependsOnlyOnDigits(a: string, b: string)
    requires a != "" && b != ""
    requires Digits(a) == Digits(b)
    ensures Validate(Text(a)).Allowed? == Validate(Text(b)).Allowed?
    ensures Validate(Text(a)).Blocked? ==> Validate(Text(a)).reason == Validate(Text(b)).reason
  {
    DigitsOnlyIsDigits(a);
    DigitsOnlyIsDigits(b);
  }

  /** The number of the usage comment is allowed as written, without a warning. */
  lemma UsageExampleAllowed(phone: string)
    requires phone == "+14155551234"
    ensures Validate(Text(phone)) == Allowed(phone, phone, None)
  {
    var rest := phone[1..];
    assert phone == "+" + rest;
    assert forall i :: 0 <= i < |rest| ==> IsAsciiDigit(rest[i]);
    FilterKeepsAll(IsDigitOrPlus, phone);
    FilterAppend(IsAsciiDigit, "+", rest);
    assert Filter(IsAsciiDigit, "+") == [];
    FilterKeepsAll(IsAsciiDigit, rest);
    assert Digits(phone) == rest;
    assert rest[|rest| - |LONG_CODE|..] != LONG_CODE by {
      assert rest[|rest| - |LONG_CODE|] == '5';
    }
    AllowedIff(phone);
  }

  /** 911 is refused as a three-digit short code. */
  lemma ShortCodeExample()
    ensures Validate(Text("911")) == Blocked(TooShort(3), Some("911"))
  {
    FilterKeepsAll(IsAsciiDigit, "911");
  }
}
