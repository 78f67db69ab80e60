/**
 * The alternative scraper: a record per listing element read from what the browser renders for
 * it (its visible text, its links, and the texts of its child elements) instead of a markup tree.
 * Identifiers carry the prefix `ALT_RFQ_`.
 */
module AlternativeScraper {
  import opened Wrappers
  import opened Text
  import opened Sequences
  import opened Patterns
  import opened Records

  /** A link inside an element: its `href` attribute, if it has one, and its visible text. */
  datatype Link = Link(href: Option<string>, text: string)

  /**
   * An element as the browser shows it: `element.text`, the `a` elements inside it, and the
   * texts of its `span`, `div`, `p` and `td` descendants in document order.
   */
  datatype WebElement = WebElement(text: string, links: seq<Link>, children: seq<string>)

  // ---------------------------------------------------------------------------------------------
  // Title: the first link into the RFQ pages, else the first substantial line.

  /** `href and 'rfq' in href and len(link_text) > 5`, where the link text is stripped. */
  predicate IsTitleLink(l: Link) {
    l.href.Some? && Contains(l.href.value, "rfq") && |Strip(l.text)| > 5
  }

  /** A stripped line longer than ten characters that does not open with `<digits> hour/day/minute`. */
  predicate IsTitleLine(line: string) {
    |Strip(line)| > 10 && !StartsWithTimeUnit(Strip(line))
  }

  /** The first title link's text, stripped and cut to 200 characters, and its href exactly. */
  function LinkTitle(links: seq<Link>): (r: Option<(string, string)>)
    ensures r.None? <==> forall k :: 0 <= k < |links| ==> !IsTitleLink(links[k])
    ensures r.Some? ==> r.value.0 != [] && r.value.1 != []
    ensures r.Some? ==> exists k :: 0 <= k < |links| && IsTitleLink(links[k])
                                    && (forall j :: 0 <= j < k ==> !IsTitleLink(links[j]))
                                    && r.value.0 == Take(Strip(links[k].text), 200) && r.value.1 == links[k].href.value
  {
    match Find(links, IsTitleLink)
    case Some(k) =>
      var l := links[k];
      assert |l.href.value| > 0 by {
        var i: nat :| i <= |l.href.value| && OccursAt(l.href.value, "rfq", i);
      }
      Some((Take(Strip(l.text), 200), l.href.value))
    case None => None
  }

  /** The first title line of the text, stripped and cut to 200 characters; `''` when there is none. */
  function LineTitle(text: string): (r: string)
    ensures r == [] <==> forall k :: 0 <= k < |SplitLines(text)| ==> !IsTitleLine(SplitLines(text)[k])
    ensures r != [] ==>
      exists k :: 0 <= k < |SplitLines(text)| && IsTitleLine(SplitLines(text)[k])
                  && (forall j :: 0 <= j < k ==> !IsTitleLine(SplitLines(text)[j]))
                  && r == Take(Strip(SplitLines(text)[k]), 200)
  {
    var lines := SplitLines(text);
    match Find(lines, IsTitleLine)
    case Some(k) =>
      var t := Strip(lines[k]);
      assert IsTitleLine(lines[k]) && |t| > 10;
      assert |Take(t, 200)| > 0;
      assert k < |SplitLines(text)| && IsTitleLine(SplitLines(text)[k]);
      assert !(forall j :: 0 <= j < |SplitLines(text)| ==> !IsTitleLine(SplitLines(text)[j]));
      Take(t, 200)
    case None => ""
  }

  /**
   * The title and the inquiry URL: the first title link gives both; failing that, the first
   * title line gives the title alone; at most 200 characters either way.
   */
  function AltTitle(e: WebElement): (r: (string, string))
    ensures |r.0| <= 200
    ensures r.1 != [] <==> LinkTitle(e.links).Some?
    ensures r.1 != [] ==> r == LinkTitle(e.links).value
    ensures r.1 == [] ==> r.0 == LineTitle(e.text)
  {
    match LinkTitle(e.links)
    case Some(tu) => tu
    case None => (LineTitle(e.text), "")
  }

  // ---------------------------------------------------------------------------------------------
  // Buyer: strategy 1 over the text's lines, strategy 2 over the child elements' texts.

  /** `\b(hour|day|minute|ago|quote|left|piece|unit|box)\b`, which rules a child text out. */
  const ChildExcluded: seq<string> := ["hour", "day", "minute", "ago", "quote", "left", "piece", "unit", "box"]

  /** The words that rule a line out: those of a child text and `rfq`, `request`. */
  const LineExcluded: seq<string> := ChildExcluded + ["rfq", "request"]

  /** `\b(trading|company|corp|ltd|inc|llc|co\.|group)\b`, the company words of a child text. */
  const ChildCompanyWords: seq<string> := ["trading", "company", "corp", "ltd", "inc", "llc", "co.", "group"]

  /** The company words of a line: those of a child text and `industries`. */
  const LineCompanyWords: seq<string> := ChildCompanyWords + ["industries"]

  /** `re.search(r'[A-Z]', s)` */
  predicate HasUpper(s: string) {
    exists i :: 0 <= i < |s| && IsUpper(s[i])
  }

  /** `re.search(r'[A-Za-z]{3,}', s)`: three letters in a row. */
  predicate HasLetterRun(s: string) {
    exists i :: 0 <= i < |s| - 2 && IsLetter(s[i]) && IsLetter(s[i + 1]) && IsLetter(s[i + 2])
  }

  /** `len([c for c in s if c.isupper()])` */
  function UpperCount(s: string): (n: nat)
    ensures n <= |s|
    ensures n > 0 <==> HasUpper(s)
  {
    if s == [] then 0
    else
      var n := UpperCount(s[..|s| - 1]) + (if IsUpper(s[|s| - 1]) then 1 else 0);
      assert forall i :: 0 <= i < |s| - 1 ==> s[..|s| - 1][i] == s[i];
      n
  }

  /**
   * `re.search(r'^[A-Z][a-z]+(?:\s+[A-Z][a-z]+)+', s)`: a capitalised word, blanks, and a second
   * capitalised word (the first repetition decides whether the pattern matches).
   */
  predicate TitleCaseName(s: string) {
    |s| > 0 && IsUpper(s[0])
    && var a := SkipWhile(s, 1, IsLower);
       var b := SkipWhile(s, a, IsSpace);
       1 < a < b && b + 1 < |s| && IsUpper(s[b]) && IsLower(s[b + 1])
  }

  /** `re.search(r'^[A-Z][a-z]+\s+[A-Z]', s)` */
  predicate CapitalisedPair(s: string) {
    |s| > 0 && IsUpper(s[0])
    && var a := SkipWhile(s, 1, IsLower);
       var b := SkipWhile(s, a, IsSpace);
       1 < a < b < |s| && IsUpper(s[b])
  }

  /** Strategy 1: the stripped line is between 4 and 79 characters long, not excluded, not a number, and company-shaped. */
  predicate IsBuyerLine(raw: string) {
    var line := Strip(raw);
    3 < |line| < 80
    && !HasAnyWord(line, LineExcluded)
    && !IsDigitString(line)
    && (HasAnyWord(line, LineCompanyWords) || TitleCaseName(line) || (|line| > 8 && HasUpper(line)))
  }

  /** Strategy 2: the stripped child text is between 6 and 59 characters long, not excluded, not a number, wordy and company-shaped. */
  predicate IsBuyerChild(raw: string) {
    var t := Strip(raw);
    5 < |t| < 60
    && !HasAnyWord(t, ChildExcluded)
    && !IsDigitString(t)
    && HasLetterRun(t)
    && (HasAnyWord(t, ChildCompanyWords) || CapitalisedPair(t) || UpperCount(t) >= 2)
  }

  /** A text that mentions none of the line-excluding words mentions none of the child-excluding ones. */
  lemma ExcludedWordsNest(s: string)
    requires !HasAnyWord(s, LineExcluded)
    ensures !HasAnyWord(s, ChildExcluded)
  {
    forall w | w in ChildExcluded
      ensures !HasWord(s, w)
    {
      assert w in LineExcluded;
    }
  }

  /**
   * The buyer: the first qualifying line, stripped; only when no line qualifies, the first
   * qualifying child text, stripped; otherwise nothing.
   */
  function AltBuyer(e: WebElement): (r: string)
    ensures r != [] ==> Strip(r) == r && 3 < |r| < 80 && !IsDigitString(r) && !HasAnyWord(r, ChildExcluded)
    ensures r == [] <==> (forall k :: 0 <= k < |SplitLines(e.text)| ==> !IsBuyerLine(SplitLines(e.text)[k]))
                         && (forall k :: 0 <= k < |e.children| ==> !IsBuyerChild(e.children[k]))
    ensures (exists k :: 0 <= k < |SplitLines(e.text)| && IsBuyerLine(SplitLines(e.text)[k])) ==>
      exists k :: 0 <= k < |SplitLines(e.text)| && IsBuyerLine(SplitLines(e.text)[k])
                  && (forall j :: 0 <= j < k ==> !IsBuyerLine(SplitLines(e.text)[j]))
                  && r == Strip(SplitLines(e.text)[k])
    ensures (forall k :: 0 <= k < |SplitLines(e.text)| ==> !IsBuyerLine(SplitLines(e.text)[k]))
            && (exists k :: 0 <= k < |e.children| && IsBuyerChild(e.children[k])) ==>
      exists k :: 0 <= k < |e.children| && IsBuyerChild(e.children[k])
                  && (forall j :: 0 <= j < k ==> !IsBuyerChild(e.children[j]))
                  && r == Strip(e.children[k])
  {
    var lines := SplitLines(e.text);
    match Find(lines, IsBuyerLine)
    case Some(k) =>
      StripIdempotent(lines[k]);
      ExcludedWordsNest(Strip(lines[k]));
      Strip(lines[k])
    case None =>
      match Find(e.children, IsBuyerChild)
      case Some(k) =>
        StripIdempotent(e.children[k]);
        Strip(e.children[k])
      case None => ""
  }

  // ---------------------------------------------------------------------------------------------
  // Country: `\b(UAE|AE|United Arab Emirates|China|CN|...)\b` with re.I, upper-cased, then the table.

  /** The alternatives in the pattern's order, lower-cased since the search ignores case. */
  const AltCountryWords: seq<string> := [
    "uae", "ae", "united arab emirates", "china", "cn", "india", "in", "usa", "us", "uk",
    "germany", "de", "france", "fr", "canada", "ca", "australia", "au", "brazil", "br",
    "japan", "jp", "south korea", "kr", "italy", "it", "spain", "es", "netherlands", "nl",
    "turkey", "tr", "russia", "ru", "saudi arabia", "sa", "egypt", "eg", "pakistan", "pk",
    "bangladesh", "bd", "thailand", "th", "vietnam", "vn", "malaysia", "my", "singapore", "sg",
    "indonesia", "id", "philippines", "ph", "taiwan", "tw", "hong kong", "hk"]

  /** The country pattern tried at `p`: a word boundary, then the first alternative followed by one. */
  function AltCountryAt(s: string, p: nat): (r: Option<Span>)
    ensures r.Some? ==> r.value.start == p && Boundary(s, p)
                        && exists k :: 0 <= k < |AltCountryWords| && AtCI(s, p, AltCountryWords[k])
                                       && r.value.end == p + |AltCountryWords[k]| && Boundary(s, r.value.end)
  {
    if !Boundary(s, p) then None
    else match BoundedWordAt(AltCountryWords, s, p, true)
      case Some(e) =>
        BoundedWordHitCI(AltCountryWords, s, p, e);
        Some(Span(p, e))
      case None => None
  }

  /** `country_mapping`: two-letter codes to the names the scraper reports. */
  const CountryCodes: map<string, string> := map[
    "AE" := "UAE", "CN" := "China", "IN" := "India", "US" := "USA", "GB" := "UK",
    "DE" := "Germany", "FR" := "France", "CA" := "Canada", "AU" := "Australia", "BR" := "Brazil",
    "JP" := "Japan", "KR" := "South Korea", "IT" := "Italy", "ES" := "Spain", "NL" := "Netherlands",
    "TR" := "Turkey", "RU" := "Russia", "SA" := "Saudi Arabia", "EG" := "Egypt", "PK" := "Pakistan",
    "BD" := "Bangladesh", "TH" := "Thailand", "VN" := "Vietnam", "MY" := "Malaysia",
    "SG" := "Singapore", "ID" := "Indonesia", "PH" := "Philippines", "TW" := "Taiwan",
    "HK" := "Hong Kong"]

  /** `country_mapping.get(found.upper(), found.upper())`: a code becomes its name; anything else stays upper-cased. */
  function NormalizeCountry(found: string): (r: string)
    ensures Upper(found) in CountryCodes ==> r == CountryCodes[Upper(found)]
    ensures Upper(found) !in CountryCodes ==> r == Upper(found)
    ensures r in CountryCodes.Values || (r == Upper(found) && Upper(found) !in CountryCodes)
  {
    var up := Upper(found);
    if up in CountryCodes then CountryCodes[up] else up
  }

  /** What is reported depends on the matched token only up to case. */
  lemma NormalizeIgnoresCase(a: string, b: string)
    requires Lower(a) == Lower(b)
    ensures NormalizeCountry(a) == NormalizeCountry(b)
  {
    UpperIgnoresCase(a, b);
  }

  /** A string that is not two characters long is not a key of the table. */
  lemma OnlyPairsAreCodes(t: string)
    requires |t| != 2
    ensures t !in CountryCodes
  {
  }

  /** Every key of the table is upper-case. */
  lemma CodesAreUpperCase()
    ensures forall c :: c in CountryCodes ==> IsUpperCase(c)
  {
  }

  /** Only one name of the table is two characters long, and it is not a key. */
  lemma ShortNameIsNotCode(c: string)
    requires c in CountryCodes && |CountryCodes[c]| == 2
    ensures CountryCodes[c] == "UK" && "UK" !in CountryCodes
  {
  }

  /** A code in any case is looked up: "cn", "Cn" and "CN" are all reported as "China". */
  lemma CodeIsLookedUp(c: string, x: string)
    requires c in CountryCodes && Lower(x) == Lower(c)
    ensures NormalizeCountry(x) == CountryCodes[c]
  {
    CodesAreUpperCase();
    UpperIgnoresCase(x, c);
    UpperIsUpperCase(c);
  }

  /**
   * A name the table reports is never itself a key, so the name in any case comes out upper-cased:
   * "China" is reported as "CHINA", not as "China".
   */
  lemma NameIsUpperCased(c: string, x: string)
    requires c in CountryCodes && Lower(x) == Lower(CountryCodes[c])
    ensures NormalizeCountry(x) == Upper(CountryCodes[c])
  {
    var n := CountryCodes[c];
    UpperIgnoresCase(x, n);
    if |n| == 2 {
      ShortNameIsNotCode(c);
      assert Upper(n) == "UK";
    } else {
      OnlyPairsAreCodes(Upper(x));
    }
  }

  /** The reported country of the text: the leftmost match, normalised. */
  function AltCountry(text: string): (r: Option<string>)
    ensures r.Some? <==> exists p :: 0 <= p <= |text| && Hits(AltCountryAt, text, p)
    ensures r.Some? ==> Search(AltCountryAt, text).Some? && r.value == NormalizeCountry(Search(AltCountryAt, text).value)
  {
    match Search(AltCountryAt, text)
    case None => None
    case Some(g) => Some(NormalizeCountry(g))
  }

  /** A case-insensitive match of one of `words` at `p`, lower-cased, is that word. */
  lemma WordHitLower(words: seq<string>, text: string, p: nat, e: nat)
    requires exists k :: 0 <= k < |words| && AtCI(text, p, words[k]) && e == p + |words[k]|
    ensures e <= |text| && exists k :: 0 <= k < |words| && Lower(text[p..e]) == words[k]
  {
    var k :| 0 <= k < |words| && AtCI(text, p, words[k]) && e == p + |words[k]|;
    AtCILower(text, p, words[k]);
  }

  /** The text the country search finds, lower-cased, is one of the alternatives. */
  lemma FoundIsAlternative(text: string)
    ensures Search(AltCountryAt, text).Some? ==>
      exists k :: 0 <= k < |AltCountryWords| && Lower(Search(AltCountryAt, text).value) == AltCountryWords[k]
  {
    if Search(AltCountryAt, text).Some? {
      SearchGroup(AltCountryAt, text);
      var p: nat :| p <= |text| && Hits(AltCountryAt, text, p)
                      && Search(AltCountryAt, text).value == text[AltCountryAt(text, p).value.start..AltCountryAt(text, p).value.end];
      WordHitLower(AltCountryWords, text, p, AltCountryAt(text, p).value.end);
    }
  }

  /** What is reported is one of the alternatives, normalised, whatever the case of the text. */
  lemma AltCountryIsAlternative(text: string)
    ensures AltCountry(text).Some? ==>
      exists k :: 0 <= k < |AltCountryWords| && AltCountry(text).value == NormalizeCountry(AltCountryWords[k])
  {
    if AltCountry(text).Some? {
      var g := Search(AltCountryAt, text).value;
      FoundIsAlternative(text);
      var k :| 0 <= k < |AltCountryWords| && Lower(g) == AltCountryWords[k];
      LowerIdempotent(g);
      NormalizeIgnoresCase(g, AltCountryWords[k]);
    }
  }

  // ---------------------------------------------------------------------------------------------
  // Quantity, time and quotes: the whole stripped match, the whole stripped match, the digits.

  /** The unit words of `(pieces?|units?|boxes?|bags?|kgs?|tons?)` before their optional `s`. */
  const AltUnits: seq<string> := ["piece", "unit", "boxe", "bag", "kg", "ton"]

  /** The text of the leftmost match of a pattern whose matches start with a digit, stripped. */
  function StrippedDigitMatch(m: Anchored, text: string): (r: Option<string>)
    requires forall s: string, p: nat :: m(s, p).Some? ==> m(s, p).value.start == p < m(s, p).value.end <= |s| && IsDigit(s[p])
    ensures r.Some? <==> exists p :: 0 <= p <= |text| && Hits(m, text, p)
    ensures r.Some? ==> r.value != [] && IsDigit(r.value[0]) && Strip(r.value) == r.value
    ensures r.Some? ==> Search(m, text).Some? && r.value == Strip(Search(m, text).value)
  {
    match Search(m, text)
    case None => None
    case Some(g) =>
      SearchGroup(m, text);
      var p: nat :| p <= |text| && Hits(m, text, p) && g == text[m(text, p).value.start..m(text, p).value.end];
      var sp := m(text, p).value;
      assert sp.start == p < sp.end <= |text| && IsDigit(text[p]);
      assert g == text[p..sp.end] && g[0] == text[p];
      StripKeepsHead(g);
      StripIdempotent(g);
      Some(Strip(g))
  }

  /** `(\d+[\s,]*\d*)\s*(pieces?|units?|boxes?|bags?|kgs?|tons?)` with re.I, tried at `p`. */
  function AltQuantityAt(s: string, p: nat): (r: Option<Span>)
    ensures r.Some? ==> r.value.start == p < r.value.end <= |s| && IsDigit(s[p])
  {
    UnitQuantityAt(AltUnits, s, p)
  }

  /** The quantity: the leftmost unit quantity, stripped. */
  function AltQuantity(text: string): (r: Option<string>)
    ensures r.Some? <==> exists p :: 0 <= p <= |text| && Hits(AltQuantityAt, text, p)
    ensures r.Some? ==> r.value != [] && IsDigit(r.value[0]) && Strip(r.value) == r.value
    ensures r.Some? ==> Search(AltQuantityAt, text).Some? && r.value == Strip(Search(AltQuantityAt, text).value)
  {
    StrippedDigitMatch(AltQuantityAt, text)
  }

  /** `(\d+)\s*(hours?|days?|minutes?)\s*(ago|before)` with re.I, stripped. */
  function AltTime(text: string): (r: Option<string>)
    ensures r.Some? <==> exists p :: 0 <= p <= |text| && Hits(TimeAgoAt, text, p)
    ensures r.Some? ==> r.value != [] && IsDigit(r.value[0]) && Strip(r.value) == r.value
    ensures r.Some? ==> Search(TimeAgoAt, text).Some? && r.value == Strip(Search(TimeAgoAt, text).value)
  {
    StrippedDigitMatch(TimeAgoAt, text)
  }

  // ---------------------------------------------------------------------------------------------
  // The record.

  /** The dictionary after every extraction step, before the gate: each field holds what its step found, or `''`. */
  function AltFields(e: WebElement, i: nat, stamp: Stamp): (r: Record)
    ensures IndexInId("ALT_RFQ_", r.rfqId) == i
    ensures r.title == AltTitle(e).0 && r.inquiryUrl == AltTitle(e).1
    ensures r.buyerName == AltBuyer(e)
    ensures r.quotesLeft == OrEmpty(QuotesLeft(e.text))
    ensures r.quantityRequired == OrEmpty(AltQuantity(e.text))
    ensures r.inquiryTime == OrEmpty(AltTime(e.text))
    ensures r.country == OrEmpty(AltCountry(e.text))
    ensures r.emailConfirmed == No && r.experienced == No && r.completed == No && r.typicalReply == No && r.interactive == No
    ensures r.buyerImage == [] && r.inquiryDate == [] && r.scrapingDate == stamp.date
  {
    GeneratedIdRoundTrip("ALT_RFQ_", i, stamp.epoch);
    var tu := AltTitle(e);
    Record(
      GeneratedId("ALT_RFQ_", i, stamp.epoch), tu.0, AltBuyer(e), "",
      OrEmpty(AltTime(e.text)), OrEmpty(QuotesLeft(e.text)), OrEmpty(AltCountry(e.text)), OrEmpty(AltQuantity(e.text)),
      No, No, No, No, No, tu.1, "", stamp.date)
  }

  /**
   * The record for the element at index `i`, or nothing when the element is skipped: its text is
   * shorter than 30 characters, or no title was found and the text has at most 50 characters.
   * A kept record without a title gets the backfilled one; every other field is as extracted.
   */
  function AltRecord(e: WebElement, i: nat, stamp: Stamp): (r: Option<Record>)
    ensures r.Some? <==> |e.text| >= 30 && (AltTitle(e).0 != [] || |e.text| > 50)
    ensures r.Some? ==> r.value.title == (if AltTitle(e).0 != [] then AltTitle(e).0 else Backfill(e.text))
    ensures r.Some? ==> |r.value.title| <= 200
    ensures r.Some? ==> r.value == AltFields(e, i, stamp).(title := r.value.title)
  {
    if |e.text| < 30 then None
    else
      var rec := AltFields(e, i, stamp);
      if rec.title == [] && |e.text| <= 50 then None
      else Some(if rec.title == [] then rec.(title := Backfill(e.text)) else rec)
  }

  /** The gate and the backfill applied to the filled record of an element long enough to be kept. */
  lemma AltRecordGate(e: WebElement, i: nat, stamp: Stamp, rec: Record)
    requires |e.text| >= 30 && rec == AltFields(e, i, stamp)
    ensures AltRecord(e, i, stamp) == if rec.title == [] && |e.text| <= 50 then None
                                      else Some(if rec.title == [] then rec.(title := Backfill(e.text)) else rec)
  {
  }

  /** The link loop, then the line loop when it found nothing. */
  method FindTitle(e: WebElement) returns (title: string, url: string)
    ensures (title, url) == AltTitle(e)
  {
    title, url := "", "";
    var k := FindFirst(e.links, IsTitleLink);
    if k.Some? {
      title := Take(Strip(e.links[k.value].text), 200);
      url := e.links[k.value].href.value;
    }
    if title == [] {
      var lines := SplitLines(e.text);
      var j := FindFirst(lines, IsTitleLine);
      if j.Some? {
        title := Take(Strip(lines[j.value]), 200);
      }
    }
  }

  /** The two buyer strategies, the second one only when the first set no `buyer_found`. */
  method FindBuyer(e: WebElement) returns (buyer: string)
    ensures buyer == AltBuyer(e)
  {
    buyer := "";
    var buyerFound := false;
    var k := FindFirst(SplitLines(e.text), IsBuyerLine);
    if k.Some? {
      buyer := Strip(SplitLines(e.text)[k.value]);
      buyerFound := true;
    }
    if !buyerFound {
      var j := FindFirst(e.children, IsBuyerChild);
      if j.Some? {
        buyer := Strip(e.children[j.value]);
      }
    }
  }

  /** The extraction steps in source order, each assigning its field only when it found something. */
  method FillFields(e: WebElement, i: nat, stamp: Stamp) returns (rec: Record)
    ensures rec == AltFields(e, i, stamp)
  {
    rec := Blank(GeneratedId("ALT_RFQ_", i, stamp.epoch), stamp.date);
    var title, url := FindTitle(e);
    rec := rec.(title := title, inquiryUrl := url);
    var buyer := FindBuyer(e);
    rec := rec.(buyerName := buyer);
    var country := AltCountry(e.text);
    if country.Some? {
      rec := rec.(country := country.value);
    }
    var quantity := AltQuantity(e.text);
    if quantity.Some? {
      rec := rec.(quantityRequired := quantity.value);
    }
    var time := AltTime(e.text);
    if time.Some? {
      rec := rec.(inquiryTime := time.value);
    }
    var quotes := QuotesLeft(e.text);
    if quotes.Some? {
      rec := rec.(quotesLeft := quotes.value);
    }
  }

  /** The body of the element loop: skip short texts, fill the record, then the gate and the backfill. */
  method ExtractElement(e: WebElement, i: nat, stamp: Stamp) returns (r: Option<Record>)
    ensures r == AltRecord(e, i, stamp)
  {
    if |e.text| < 30 {
      return None;
    }
    var rec := FillFields(e, i, stamp);
    AltRecordGate(e, i, stamp, rec);
    if rec.title != [] || |e.text| > 50 {
      if rec.title == [] {
        rec := rec.(title := Backfill(e.text));
      }
      return Some(rec);
    }
    return None;
  }

  /** The records of the elements in order; `clock(i)` is read at element `i`. */
  function AltRecords(es: seq<WebElement>, clock: nat -> Stamp): seq<Record> {
    Collect(es, (e: WebElement, i: nat) => AltRecord(e, i, clock(i)))
  }

  /** The element loop of `extract_using_selenium_elements`. */
  method ExtractUsingSeleniumElements(es: seq<WebElement>, clock: nat -> Stamp) returns (list: seq<Record>)
    ensures list == AltRecords(es, clock)
  {
    list := [];
    for i := 0 to |es|
      invariant list == AltRecords(es[..i], clock)
    {
      var r := ExtractElement(es[i], i, clock(i));
      CollectStep(es, (e: WebElement, i: nat) => AltRecord(e, i, clock(i)), i);
      if r.Some? {
        list := list + [r.value];
      }
    }
    assert es[..|es|] == es;
  }

  /**
   * Each record's identifier records the index of its element, these indices increase along the
   * list, and so no two records share an identifier.
   */
  lemma AltIdsDistinct(es: seq<WebElement>, clock: nat -> Stamp)
    ensures forall a :: 0 <= a < |AltRecords(es, clock)| ==> 0 <= IndexInId("ALT_RFQ_", AltRecords(es, clock)[a].rfqId) < |es|
    ensures forall a, b :: 0 <= a < b < |AltRecords(es, clock)| ==>
      IndexInId("ALT_RFQ_", AltRecords(es, clock)[a].rfqId) < IndexInId("ALT_RFQ_", AltRecords(es, clock)[b].rfqId)
    ensures forall a, b :: 0 <= a < b < |AltRecords(es, clock)| ==> AltRecords(es, clock)[a].rfqId != AltRecords(es, clock)[b].rfqId
  {
    var f := (e: WebElement, i: nat) => AltRecord(e, i, clock(i));
    var index := (r: Record) => IndexInId("ALT_RFQ_", r.rfqId);
    forall i | 0 <= i < |es| && f(es[i], i).Some?
      ensures index(f(es[i], i).value) == i
    {
      assert f(es[i], i) == AltRecord(es[i], i, clock(i));
    }
    CollectOrdered(es, f, index);
  }
}
