/**
 * The record-building part of `extract_seller_info` in lib/seller_info.py.
 *
 * The page fetch becomes a `Fetch` value (failed with a message, or loaded),
 * and every BeautifulSoup query becomes one field of `Page`: the first element
 * or text node the query would find, or `None`. What remains is the dictionary
 * the function builds in place, modelled by the class `SellerDict`, whose
 * methods are the six guarded steps of the source; `SellerRecordOf` states the
 * finished record field by field, and `ExtractSellerInfo` is proved to build it.
 */
module SellerInfo {
  import opened Wrappers
  import opened Strings

  // ---------------------------------------------------------------------------
  // Python text: str.isspace, str.strip, Tag.get_text(strip=True)
  // ---------------------------------------------------------------------------

  /** Python's `str.isspace` for one character; `str.strip()` and the regular
      expression class `\s` use the same set. */
  predicate IsSpace(c: char) {
    || c == ' ' || c == '\t' || c == '\n' || c == '\r'
    || c == '\U{000B}' || c == '\U{000C}'
    || '\U{001C}' <= c <= '\U{001F}'
    || c == '\U{0085}' || c == '\U{00A0}' || c == '\U{1680}'
    || '\U{2000}' <= c <= '\U{200A}'
    || c == '\U{2028}' || c == '\U{2029}' || c == '\U{202F}' || c == '\U{205F}'
    || c == '\U{3000}'
  }

  /** Neither the first nor the last character is whitespace. */
  predicate NoOuterSpace(s: string) {
    s == [] || (!IsSpace(s[0]) && !IsSpace(s[|s| - 1]))
  }

  predicate AllSpace(s: string) {
    forall i :: 0 <= i < |s| ==> IsSpace(s[i])
  }

  /** `s.lstrip()`: the suffix of `s` left after its leading whitespace. */
  function LStrip(s: string): (r: string)
    ensures |r| <= |s| && r == s[|s| - |r|..]
    ensures r == [] || !IsSpace(r[0])
    ensures AllSpace(s[..|s| - |r|])
  {
    if s != [] && IsSpace(s[0]) then LStrip(s[1..]) else s
  }

  /** `s.rstrip()`: the prefix of `s` left before its trailing whitespace. */
  function RStrip(s: string): (r: string)
    ensures |r| <= |s| && r == s[..|r|]
    ensures r == [] || !IsSpace(r[|r| - 1])
    ensures AllSpace(s[|r|..])
  {
    if s != [] && IsSpace(s[|s| - 1]) then RStrip(s[..|s| - 1]) else s
  }

  /** `s.strip()` */
  function Strip(s: string): (r: string)
    ensures NoOuterSpace(r)
  {
    var l := LStrip(s);
    var r := RStrip(l);
    assert r != [] ==> r[0] == l[0];
    r
  }

  lemma {:induction false} LStripPadded(w: string, t: string)
    requires AllSpace(w)
    requires t == [] || !IsSpace(t[0])
    ensures LStrip(w + t) == t
  {
    if w != [] {
      assert (w + t)[1..] == w[1..] + t;
      LStripPadded(w[1..], t);
    } else {
      assert w + t == t;
    }
  }

  lemma {:induction false} RStripPadded(t: string, w: string)
    requires AllSpace(w)
    requires t == [] || !IsSpace(t[|t| - 1])
    ensures RStrip(t + w) == t
  {
    if w != [] {
      assert (t + w)[..|t + w| - 1] == t + w[..|w| - 1];
      RStripPadded(t, w[..|w| - 1]);
    } else {
      assert t + w == t;
    }
  }

  /** `strip` removes exactly the surrounding whitespace: a text without outer
      whitespace, padded on both sides, strips back to itself. */
  lemma StripPadded(before: string, t: string, after: string)
    requires AllSpace(before) && AllSpace(after) && NoOuterSpace(t)
    ensures Strip(before + t + after) == t
  {
    if t == [] {
      assert before + t + after == before + after;
      LStripPadded(before + after, []);
      assert before + after + [] == before + after;
      RStripPadded([], []);
    } else {
      assert before + t + after == before + (t + after);
      LStripPadded(before, t + after);
      RStripPadded(t, after);
    }
  }

  /** Stripping twice strips once. */
  lemma StripIdempotent(s: string)
    ensures Strip(Strip(s)) == Strip(s)
  {
    var t := Strip(s);
    assert [] + t + [] == t;
    StripPadded([], t, []);
  }

  /** An element as the queries see it: the text strings below it in document
      order, and its attributes. */
  datatype Element = Element(strings: seq<string>, attrs: map<string, string>)

  /** `Tag.get_text(strip=True)`: every string below the element stripped,
      the empty ones dropped, the rest joined with no separator. */
  function GetText(strings: seq<string>): (r: string)
    ensures NoOuterSpace(r)
  {
    if strings == [] then ""
    else
      var head, tail := Strip(strings[0]), GetText(strings[1..]);
      JoinNoOuterSpace(head, tail);
      head + tail
  }

  lemma JoinNoOuterSpace(a: string, b: string)
    requires NoOuterSpace(a) && NoOuterSpace(b)
    ensures NoOuterSpace(a + b)
  {
    if a == [] {
      assert a + b == b;
    } else if b == [] {
      assert a + b == a;
    } else {
      assert (a + b)[0] == a[0] && (a + b)[|a + b| - 1] == b[|b| - 1];
    }
  }

  /** For an element holding one string, `get_text(strip=True)` is that string
      with its surrounding whitespace removed. */
  lemma GetTextOneString(before: string, t: string, after: string)
    requires AllSpace(before) && AllSpace(after) && NoOuterSpace(t)
    ensures GetText([before + t + after]) == t
  {
    var ss := [before + t + after];
    assert ss[1..] == [];
    assert GetText(ss) == Strip(ss[0]) + GetText([]);
    StripPadded(before, t, after);
  }

  /** Python truthiness of a query that returns a string or `None`. */
  predicate Truthy(text: Option<string>) {
    text.Some? && text.value != ""
  }

  // ---------------------------------------------------------------------------
  // re.search(r'(\d+)\s*YRS', text).group(1)
  // ---------------------------------------------------------------------------

  /** End of the run of digits that starts at `i`. */
  function DigitRunEnd(t: string, i: nat): (j: nat)
    requires i <= |t|
    ensures i <= j <= |t|
    ensures forall m :: i <= m < j ==> IsAsciiDigit(t[m])
    ensures j == |t| || !IsAsciiDigit(t[j])
    decreases |t| - i
  {
    if i < |t| && IsAsciiDigit(t[i]) then DigitRunEnd(t, i + 1) else i
  }

  /** End of the run of whitespace that starts at `i`. */
  function SpaceRunEnd(t: string, i: nat): (j: nat)
    requires i <= |t|
    ensures i <= j <= |t|
    ensures forall m :: i <= m < j ==> IsSpace(t[m])
    ensures j == |t| || !IsSpace(t[j])
    decreases |t| - i
  {
    if i < |t| && IsSpace(t[i]) then SpaceRunEnd(t, i + 1) else i
  }

  const YRS: string := "YRS"

  /** `(\d+)\s*YRS` matches `t[p..k + 3]` with the group `t[p..j]`. */
  predicate RegexMatch(t: string, p: nat, j: nat, k: nat) {
    && p < j <= k && k + |YRS| <= |t|
    && (forall m :: p <= m < j ==> IsAsciiDigit(t[m]))
    && (forall m :: j <= m < k ==> IsSpace(t[m]))
    && t[k..k + |YRS|] == YRS
  }

  /** A match starts at `p`, taking as many digits and then as many spaces as
      there are. */
  predicate GreedyMatchAt(t: string, p: nat) {
    p < |t| && IsAsciiDigit(t[p]) &&
    var k := SpaceRunEnd(t, DigitRunEnd(t, p));
    k + |YRS| <= |t| && t[k..k + |YRS|] == YRS
  }

  /** Any match is the greedy one: a digit or a space cannot stand where the
      next part of the pattern needs a space or a `Y`. So a match starts at `p`
      exactly when the greedy one does, and its group is the whole digit run. */
  lemma MatchIsGreedy(t: string, p: nat, j: nat, k: nat)
    requires RegexMatch(t, p, j, k)
    ensures j == DigitRunEnd(t, p) && k == SpaceRunEnd(t, j)
    ensures GreedyMatchAt(t, p)
  {
    assert t[k] == 'Y' && !IsSpace(t[k]);
    assert !IsAsciiDigit(t[j]) by {
      if j < k { assert IsSpace(t[j]); }
    }
    assert DigitRunEnd(t, p) == j;
    assert SpaceRunEnd(t, j) == k;
  }

  /** Leftmost position at or after `from` where a match starts, or `|t|`. */
  function FirstMatchFrom(t: string, from: nat): (p: nat)
    requires from <= |t|
    ensures from <= p <= |t|
    ensures p < |t| ==> GreedyMatchAt(t, p)
    ensures forall q :: from <= q < p ==> !GreedyMatchAt(t, q)
    decreases |t| - from
  {
    if from == |t| then from
    else if GreedyMatchAt(t, from) then from
    else FirstMatchFrom(t, from + 1)
  }

  /** The captured digits of `re.search(r'(\d+)\s*YRS', t)`, or `None` when it
      finds no match. */
  function YearsDigits(t: string): (r: Option<string>)
    ensures r.Some? ==> |r.value| >= 1 && forall i :: 0 <= i < |r.value| ==> IsAsciiDigit(r.value[i])
  {
    var p := FirstMatchFrom(t, 0);
    if p < |t| then Some(t[p..DigitRunEnd(t, p)]) else None
  }

  /** The capture is the group of the leftmost match: given a match that no
      match starts before, `YearsDigits` returns its group; and when there is
      no match at all it returns `None`. */
  lemma YearsDigitsIsLeftmostMatch(t: string, p: nat, j: nat, k: nat)
    requires RegexMatch(t, p, j, k)
    requires forall q: nat, j': nat, k': nat :: q < p ==> !RegexMatch(t, q, j', k')
    ensures YearsDigits(t) == Some(t[p..j])
  {
    MatchIsGreedy(t, p, j, k);
    var first := FirstMatchFrom(t, 0);
    if first < p {
      assert RegexMatch(t, first, DigitRunEnd(t, first), SpaceRunEnd(t, DigitRunEnd(t, first)));
    }
  }

  lemma YearsDigitsNone(t: string)
    ensures YearsDigits(t).None? <==> forall p: nat, j: nat, k: nat :: !RegexMatch(t, p, j, k)
  {
    var first := FirstMatchFrom(t, 0);
    if first < |t| {
      assert RegexMatch(t, first, DigitRunEnd(t, first), SpaceRunEnd(t, DigitRunEnd(t, first)));
    } else {
      forall p: nat, j: nat, k: nat | RegexMatch(t, p, j, k) ensures false {
        MatchIsGreedy(t, p, j, k);
      }
    }
  }

  /** The `f"{years_match.group(1)} years"` label. */
  function YearsLabel(digits: string): string { digits + " years" }

  // ---------------------------------------------------------------------------
  // The company-profile link
  // ---------------------------------------------------------------------------

  const ALIBABA_ORIGIN: string := "https://www.alibaba.com"

  /** The href of the company link made absolute: protocol-relative links get
      `https:`, site-relative ones the site's origin, anything else is kept. */
  function NormalizeHref(href: string): (r: string)
    ensures r == href || r == "https:" + href || r == ALIBABA_ORIGIN + href
    ensures r == href <==> !StartsWith(href, "/")
    ensures StartsWith(href, "//") ==> r == "https:" + href
    ensures StartsWith(href, "/") && !StartsWith(href, "//") ==> r == ALIBABA_ORIGIN + href
    ensures !StartsWith(r, "/")
  {
    if StartsWith(href, "//") then
      var r := "https:" + href;
      assert r[0] == 'h';
      r
    else if StartsWith(href, "/") then
      var r := ALIBABA_ORIGIN + href;
      assert r[0] == 'h';
      r
    else href
  }

  /** A normalised link is left alone by a second normalisation. */
  lemma NormalizeHrefIdempotent(href: string)
    ensures NormalizeHref(NormalizeHref(href)) == NormalizeHref(href)
  {
  }

  // ---------------------------------------------------------------------------
  // The page, the fetch and the record
  // ---------------------------------------------------------------------------

  /** What each `soup.find` call of the source returns on the fetched page. */
  datatype Page = Page(
    nameAnchor: Option<Element>,     // <a> whose class matches company.*name
    nameDiv: Option<Element>,        // <div> whose class matches company.*name
    verifiedSpan: Option<Element>,   // <span> whose class matches verified
    yearsText: Option<string>,       // text node matching \d+\s*YRS
    countrySpan: Option<Element>,    // <span> whose class matches country
    countryText: Option<string>,     // text node naming one of five countries
    companyLink: Option<Element>,    // <a> whose href matches /company/
    contactAnchor: Option<Element>,  // <a> whose class matches contact
    whatsAppText: Option<string>,    // text node matching WhatsApp[:|\s]+[+\d\s\-()]+
    weChatText: Option<string>)      // text node matching WeChat[:|\s]+[\w\d]+

  /** The outcome of `requests.get(...)` with `raise_for_status()`. */
  datatype Fetch = FetchFailed(message: string) | Fetched(page: Page)

  /** The dictionary `extract_seller_info` returns: the error record, or the
      seller record with its advisory note. */
  datatype SellerRecord =
    | ErrorRecord(error: string, url: string)
    | Record(url: string, name: string, verification: string, years: string,
             country: string, profileUrl: Option<string>,
             contact: map<string, string>, note: string)

  const UNKNOWN: string := "Unknown"
  const VERIFIED: string := "Verified"
  const UNVERIFIED: string := "Unverified"
  const FETCH_ERROR_PREFIX: string := "Failed to fetch page: "
  const NOTE: string :=
    "Direct messaging requires Alibaba account login. "
    + "Visit the product page or company profile to send inquiries."

  const CONTACT_URL: string := "contact_url"
  const WHATSAPP: string := "whatsapp"
  const WECHAT: string := "wechat"

  // One function per guarded step: what that step finds, or `None` when it
  // leaves its field alone.

  /** The company-name step: the anchor's text wins over the div's. */
  function NameFound(page: Page): (r: Option<string>)
    ensures r.Some? <==> page.nameAnchor.Some? || page.nameDiv.Some?
    ensures page.nameAnchor.Some? ==> r == Some(GetText(page.nameAnchor.value.strings))
    ensures page.nameAnchor.None? && page.nameDiv.Some? ==> r == Some(GetText(page.nameDiv.value.strings))
    ensures r.Some? ==> NoOuterSpace(r.value)
  {
    match (if page.nameAnchor.Some? then page.nameAnchor else page.nameDiv)
    case Some(e) => Some(GetText(e.strings))
    case None => None
  }

  /** The verification step always decides, on the presence of a verified span. */
  function VerificationFound(page: Page): (r: string)
    ensures r in {VERIFIED, UNVERIFIED}
    ensures r == VERIFIED <==> page.verifiedSpan.Some?
  {
    if page.verifiedSpan.Some? then VERIFIED else UNVERIFIED
  }

  /** The years step finds a label exactly when the text node is truthy and
      `(\d+)\s*YRS` matches it; the label is the captured digits and " years". */
  function YearsFound(page: Page): (r: Option<string>)
    ensures r.Some? <==> Truthy(page.yearsText) && YearsDigits(page.yearsText.value).Some?
    ensures r.Some? ==> r.value == YearsLabel(YearsDigits(page.yearsText.value).value)
  {
    if !Truthy(page.yearsText) then None
    else match YearsDigits(page.yearsText.value)
      case Some(digits) => Some(YearsLabel(digits))
      case None => None
  }

  /** A span's text is stripped; a bare text node is stored as it is. */
  function CountryFound(page: Page): (r: Option<string>)
    ensures r.Some? <==> page.countrySpan.Some? || Truthy(page.countryText)
    ensures page.countrySpan.Some? ==> r == Some(GetText(page.countrySpan.value.strings))
    ensures page.countrySpan.None? && Truthy(page.countryText) ==> r == page.countryText
  {
    if page.countrySpan.Some? then Some(GetText(page.countrySpan.value.strings))
    else if Truthy(page.countryText) then page.countryText
    else None
  }

  /** A link without an href makes `href.startswith` raise; the step's
      `except` then leaves the field as it was. */
  function ProfileFound(page: Page): (r: Option<string>)
    ensures r.Some? <==> page.companyLink.Some? && "href" in page.companyLink.value.attrs
    ensures r.Some? ==> r.value == NormalizeHref(page.companyLink.value.attrs["href"])
    ensures r.Some? ==> !StartsWith(r.value, "/")
  {
    match page.companyLink
    case Some(e) => if "href" in e.attrs then Some(NormalizeHref(e.attrs["href"])) else None
    case None => None
  }

  /** The contact link's href, or `''` when the anchor has none. */
  function ContactUrlFound(page: Page): (r: Option<string>)
    ensures r.Some? <==> page.contactAnchor.Some?
    ensures r.Some? && "href" in page.contactAnchor.value.attrs ==> r.value == page.contactAnchor.value.attrs["href"]
    ensures r.Some? && "href" !in page.contactAnchor.value.attrs ==> r.value == ""
  {
    match page.contactAnchor
    case Some(e) => Some(if "href" in e.attrs then e.attrs["href"] else "")
    case None => None
  }

  /** A found text node, stripped. */
  function StrippedText(text: Option<string>): (r: Option<string>)
    ensures r.Some? <==> Truthy(text)
    ensures r.Some? ==> r.value == Strip(text.value) && NoOuterSpace(r.value)
  {
    if Truthy(text) then Some(Strip(text.value)) else None
  }

  /** `m[key] = value` when there is a value. */
  function Put(m: map<string, string>, key: string, value: Option<string>): map<string, string> {
    if value.Some? then m[key := value.value] else m
  }

  /** The contact dictionary after the contact step has run on `m`. */
  function WithContacts(m: map<string, string>, page: Page): (r: map<string, string>)
    ensures m.Keys <= r.Keys <= m.Keys + {CONTACT_URL, WHATSAPP, WECHAT}
    ensures CONTACT_URL in r <==> CONTACT_URL in m || page.contactAnchor.Some?
    ensures WHATSAPP in r <==> WHATSAPP in m || Truthy(page.whatsAppText)
    ensures WECHAT in r <==> WECHAT in m || Truthy(page.weChatText)
    ensures forall key :: key in m && key !in {CONTACT_URL, WHATSAPP, WECHAT} ==> r[key] == m[key]
    ensures page.contactAnchor.Some? ==>
      r[CONTACT_URL] == (if "href" in page.contactAnchor.value.attrs then page.contactAnchor.value.attrs["href"] else "")
    ensures page.contactAnchor.None? && CONTACT_URL in m ==> r[CONTACT_URL] == m[CONTACT_URL]
    ensures Truthy(page.whatsAppText) ==> r[WHATSAPP] == Strip(page.whatsAppText.value)
    ensures !Truthy(page.whatsAppText) && WHATSAPP in m ==> r[WHATSAPP] == m[WHATSAPP]
    ensures Truthy(page.weChatText) ==> r[WECHAT] == Strip(page.weChatText.value)
    ensures !Truthy(page.weChatText) && WECHAT in m ==> r[WECHAT] == m[WECHAT]
  {
    var withUrl := Put(m, CONTACT_URL, ContactUrlFound(page));
    var withWhatsApp := Put(withUrl, WHATSAPP, StrippedText(page.whatsAppText));
    Put(withWhatsApp, WECHAT, StrippedText(page.weChatText))
  }

  /** The record `extract_seller_info(url)` returns, field by field. */
  function SellerRecordOf(url: string, fetch: Fetch): (r: SellerRecord)
    ensures r.ErrorRecord? <==> fetch.FetchFailed?
    ensures r.ErrorRecord? ==> r.error == FETCH_ERROR_PREFIX + fetch.message
    ensures r.url == url
    ensures r.Record? ==> r.note == NOTE
    ensures r.Record? ==> NoOuterSpace(r.name)
    ensures r.Record? ==> (r.verification == VERIFIED <==> fetch.page.verifiedSpan.Some?)
    ensures r.Record? ==> r.verification in {VERIFIED, UNVERIFIED}
    ensures r.Record? ==> r.contact.Keys <= {CONTACT_URL, WHATSAPP, WECHAT}
    ensures r.Record? ==> (CONTACT_URL in r.contact <==> fetch.page.contactAnchor.Some?)
    ensures r.Record? ==> (WHATSAPP in r.contact <==> Truthy(fetch.page.whatsAppText))
    ensures r.Record? ==> (WECHAT in r.contact <==> Truthy(fetch.page.weChatText))
    ensures r.Record? && WHATSAPP in r.contact ==> NoOuterSpace(r.contact[WHATSAPP])
    ensures r.Record? && WECHAT in r.contact ==> NoOuterSpace(r.contact[WECHAT])
    ensures r.Record? ==> r.profileUrl.None? || !StartsWith(r.profileUrl.value, "/")
    // the value of each field
    ensures r.Record? && fetch.page.nameAnchor.Some? ==> r.name == GetText(fetch.page.nameAnchor.value.strings)
    ensures r.Record? && fetch.page.nameAnchor.None? && fetch.page.nameDiv.Some? ==>
      r.name == GetText(fetch.page.nameDiv.value.strings)
    ensures r.Record? && fetch.page.nameAnchor.None? && fetch.page.nameDiv.None? ==> r.name == UNKNOWN
    ensures r.Record? && Truthy(fetch.page.yearsText) && YearsDigits(fetch.page.yearsText.value).Some? ==>
      r.years == YearsLabel(YearsDigits(fetch.page.yearsText.value).value)
    ensures r.Record? && !(Truthy(fetch.page.yearsText) && YearsDigits(fetch.page.yearsText.value).Some?) ==>
      r.years == UNKNOWN
    ensures r.Record? && fetch.page.countrySpan.Some? ==> r.country == GetText(fetch.page.countrySpan.value.strings)
    ensures r.Record? && fetch.page.countrySpan.None? && Truthy(fetch.page.countryText) ==>
      r.country == fetch.page.countryText.value
    ensures r.Record? && fetch.page.countrySpan.None? && !Truthy(fetch.page.countryText) ==> r.country == UNKNOWN
    ensures r.Record? && fetch.page.companyLink.Some? && "href" in fetch.page.companyLink.value.attrs ==>
      r.profileUrl == Some(NormalizeHref(fetch.page.companyLink.value.attrs["href"]))
    ensures r.Record? && !(fetch.page.companyLink.Some? && "href" in fetch.page.companyLink.value.attrs) ==>
      r.profileUrl == None
    ensures r.Record? && fetch.page.contactAnchor.Some? ==>
      r.contact[CONTACT_URL] ==
        (if "href" in fetch.page.contactAnchor.value.attrs then fetch.page.contactAnchor.value.attrs["href"] else "")
    ensures r.Record? && Truthy(fetch.page.whatsAppText) ==> r.contact[WHATSAPP] == Strip(fetch.page.whatsAppText.value)
    ensures r.Record? && Truthy(fetch.page.weChatText) ==> r.contact[WECHAT] == Strip(fetch.page.weChatText.value)
  {
    match fetch
    case FetchFailed(message) => ErrorRecord(FETCH_ERROR_PREFIX + message, url)
    case Fetched(page) =>
      Record(url,
             NameFound(page).GetOr(UNKNOWN),
             VerificationFound(page),
             YearsFound(page).GetOr(UNKNOWN),
             CountryFound(page).GetOr(UNKNOWN),
             ProfileFound(page),
             WithContacts(map[], page),
             NOTE)
  }

  /** A page on which no query finds anything. */
  const NOTHING_FOUND: Page := Page(None, None, None, None, None, None, None, None, None, None)

  /** When nothing is found every field keeps its default, except the status,
      which the verification step always sets. */
  lemma NothingFoundKeepsDefaults(url: string)
    ensures SellerRecordOf(url, Fetched(NOTHING_FOUND))
         == Record(url, UNKNOWN, UNVERIFIED, UNKNOWN, UNKNOWN, None, map[], NOTE)
  {
  }

  /** A company-name element wrapping " Acme Co " yields the name "Acme Co". */
  lemma AcmeNameIsTrimmed()
    ensures GetText([" Acme Co "]) == "Acme Co"
  {
    assert " Acme Co " == " " + "Acme Co" + " ";
    GetTextOneString(" ", "Acme Co", " ");
  }

  /** The text "5 YRS" yields the label "5 years". */
  lemma FiveYrsIsFiveYears()
    ensures YearsDigits("5 YRS") == Some("5")
    ensures YearsLabel(YearsDigits("5 YRS").value) == "5 years"
  {
    var t := "5 YRS";
    assert t[2..5] == YRS;
    YearsDigitsIsLeftmostMatch(t, 0, 1, 2);
    assert t[0..1] == "5";
  }

  /** A site-relative and a protocol-relative profile link. */
  lemma ProfileHrefExamples()
    ensures NormalizeHref("/company/12345") == "https://www.alibaba.com/company/12345"
    ensures NormalizeHref("//foo.com/x") == "https://foo.com/x"
  {
    assert StartsWith("//foo.com/x", "//");
    var href := "/company/12345";
    assert href[1] == 'c' && StartsWith(href, "/") && !StartsWith(href, "//");
  }

  // ---------------------------------------------------------------------------
  // The dictionary built in place
  // ---------------------------------------------------------------------------

  /** The `seller_info` dictionary while `extract_seller_info` fills it in. */
  class SellerDict {
    var url: string
    var name: string
    var verification: string
    var years: string
    var country: string
    var profileUrl: Option<string>
    var contact: map<string, string>
    var note: Option<string>

    /** Only the three contact channels ever appear, and the status is one of
        its three labels. */
    ghost predicate Valid()
      reads this
    {
      contact.Keys <= {CONTACT_URL, WHATSAPP, WECHAT}
      && verification in {UNKNOWN, VERIFIED, UNVERIFIED}
    }

    /** The initial dictionary: every field at its default, no note yet. */
    constructor (productUrl: string)
      ensures Valid()
      ensures url == productUrl && name == UNKNOWN && verification == UNKNOWN
      ensures years == UNKNOWN && country == UNKNOWN && profileUrl == None
      ensures contact == map[] && note == None
    {
      url := productUrl;
      name := UNKNOWN;
      verification := UNKNOWN;
      years := UNKNOWN;
      country := UNKNOWN;
      profileUrl := None;
      contact := map[];
      note := None;
    }

    /** The company-name step: the anchor wins over the div. */
    method ExtractName(page: Page)
      requires Valid()
      modifies this
      ensures url == old(url) && verification == old(verification) && years == old(years) && country == old(country)
      ensures profileUrl == old(profileUrl) && contact == old(contact) && note == old(note)
      ensures Valid()
      ensures name == NameFound(page).GetOr(old(name))
    {
      var elem := page.nameAnchor;
      if elem.None? {
        elem := page.nameDiv;
      }
      if elem.Some? {
        name := GetText(elem.value.strings);
      }
    }

    /** The verification step always decides. */
    method ExtractVerification(page: Page)
      requires Valid()
      modifies this
      ensures url == old(url) && name == old(name) && years == old(years) && country == old(country)
      ensures profileUrl == old(profileUrl) && contact == old(contact) && note == old(note)
      ensures Valid()
      ensures verification == (if page.verifiedSpan.Some? then VERIFIED else UNVERIFIED)
    {
      if page.verifiedSpan.Some? {
        verification := VERIFIED;
      } else {
        verification := UNVERIFIED;
      }
    }

    /** The years-as-supplier step. */
    method ExtractYears(page: Page)
      requires Valid()
      modifies this
      ensures url == old(url) && name == old(name) && verification == old(verification) && country == old(country)
      ensures profileUrl == old(profileUrl) && contact == old(contact) && note == old(note)
      ensures Valid()
      ensures years == YearsFound(page).GetOr(old(years))
    {
      if Truthy(page.yearsText) {
        var yearsMatch := YearsDigits(page.yearsText.value);
        if yearsMatch.Some? {
          years := YearsLabel(yearsMatch.value);
        }
      }
    }

    /** The country step: a country span, else a text node naming a country. */
    method ExtractCountry(page: Page)
      requires Valid()
      modifies this
      ensures url == old(url) && name == old(name) && verification == old(verification) && years == old(years)
      ensures profileUrl == old(profileUrl) && contact == old(contact) && note == old(note)
      ensures Valid()
      ensures country == CountryFound(page).GetOr(old(country))
    {
      if page.countrySpan.Some? {
        country := GetText(page.countrySpan.value.strings);
      } else if Truthy(page.countryText) {
        country := page.countryText.value;
      }
    }

    /** The company-profile step. */
    method ExtractProfileUrl(page: Page)
      requires Valid()
      modifies this
      ensures url == old(url) && name == old(name) && verification == old(verification) && years == old(years)
      ensures country == old(country) && contact == old(contact) && note == old(note)
      ensures Valid()
      ensures profileUrl == if ProfileFound(page).Some? then ProfileFound(page) else old(profileUrl)
    {
      if page.companyLink.Some? {
        var attrs := page.companyLink.value.attrs;
        if "href" in attrs {
          var href := attrs["href"];
          if StartsWith(href, "//") {
            profileUrl := Some("https:" + href);
          } else if StartsWith(href, "/") {
            profileUrl := Some(ALIBABA_ORIGIN + href);
          } else {
            profileUrl := Some(href);
          }
        }
      }
    }

    /** The contact step: each channel is written only when its query finds something. */
    method ExtractContact(page: Page)
      requires Valid()
      modifies this
      ensures url == old(url) && name == old(name) && verification == old(verification) && years == old(years)
      ensures country == old(country) && profileUrl == old(profileUrl) && note == old(note)
      ensures Valid()
      ensures contact == WithContacts(old(contact), page)
    {
      ghost var before := contact;
      if page.contactAnchor.Some? {
        var attrs := page.contactAnchor.value.attrs;
        contact := contact[CONTACT_URL := if "href" in attrs then attrs["href"] else ""];
      }
      ghost var withUrl := contact;
      assert withUrl == Put(before, CONTACT_URL, ContactUrlFound(page));
      if Truthy(page.whatsAppText) {
        contact := contact[WHATSAPP := Strip(page.whatsAppText.value)];
      }
      ghost var withWhatsApp := contact;
      assert withWhatsApp == Put(withUrl, WHATSAPP, StrippedText(page.whatsAppText));
      if Truthy(page.weChatText) {
        contact := contact[WECHAT := Strip(page.weChatText.value)];
      }
      assert contact == Put(withWhatsApp, WECHAT, StrippedText(page.weChatText));
    }

    /** The closing advisory note. */
    method AddNote()
      requires Valid()
      modifies this
      ensures url == old(url) && name == old(name) && verification == old(verification) && years == old(years)
      ensures country == old(country) && profileUrl == old(profileUrl) && contact == old(contact)
      ensures Valid()
      ensures note == Some(NOTE)
    {
      note := Some(NOTE);
    }

    /** The dictionary as a value, once its note is in: every field as it
        stands, so only the three contact channels and one of the three status
        labels can appear in it. */
    function Snapshot(): (r: SellerRecord)
      reads this
      requires Valid() && note.Some?
      ensures r.Record? && r.url == url && r.note == note.value
      ensures r.name == name && r.verification == verification && r.years == years && r.country == country
      ensures r.profileUrl == profileUrl && r.contact == contact
      ensures r.contact.Keys <= {CONTACT_URL, WHATSAPP, WECHAT}
      ensures r.verification in {UNKNOWN, VERIFIED, UNVERIFIED}
    {
      Record(url, name, verification, years, country, profileUrl, contact, note.value)
    }
  }

  /** `extract_seller_info(product_url)`: the steps run in the source's order on
      a fresh dictionary, and the result is the record `SellerRecordOf` states. */
  method ExtractSellerInfo(productUrl: string, fetch: Fetch) returns (r: SellerRecord)
    ensures r == SellerRecordOf(productUrl, fetch)
  {
    if fetch.FetchFailed? {
      return ErrorRecord(FETCH_ERROR_PREFIX + fetch.message, productUrl);
    }
    var page := fetch.page;
    var info := new SellerDict(productUrl);
    info.ExtractName(page);
    assert info.name == NameFound(page).GetOr(UNKNOWN);
    info.ExtractVerification(page);
    info.ExtractYears(page);
    assert info.years == YearsFound(page).GetOr(UNKNOWN);
    info.ExtractCountry(page);
    assert info.country == CountryFound(page).GetOr(UNKNOWN);
    info.ExtractProfileUrl(page);
    assert info.profileUrl == ProfileFound(page);
    info.ExtractContact(page);
    info.AddNote();
    r := info.Snapshot();
  }
}
