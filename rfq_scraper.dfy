/**
 * `AlibabaRFQScraper`: one record per RFQ element of a listing page, read from the element's
 * parsed HTML; elements that several selectors found are de-duplicated by the first 200
 * characters of their HTML, and a record is kept when it has a title or an RFQ number.
 */
module RfqScraper {
  import opened Wrappers
  import opened Text
  import opened Sequences
  import opened Patterns
  import opened Markup
  import opened Records
  import opened Site

  /**
   * One RFQ element as the page gives it: its outer HTML, the document parsed from it (whose
   * text nodes `find(text=...)` and `get_text()` read) and the tag each
   * `soup.find(name, {'class': ...})` call returns.
   */
  datatype RfqElement = RfqElement(
    outerHtml: string,
    soup: Tag,
    idLink: Option<Tag>,      // <a>, class matching `title|link`
    titleLink: Option<Tag>,   // <a>, class matching `title`
    h3: Option<Tag>,
    h4: Option<Tag>,
    buyerSpan: Option<Tag>,   // <span>, class matching `buyer|name`
    buyerDiv: Option<Tag>,    // <div>, class matching `buyer|name`
    avatar: Option<Tag>,      // <img>, class matching `avatar|buyer|profile`
    timeSpan: Option<Tag>,    // <span>, class matching `time|date`
    countrySpan: Option<Tag>, // <span>, class matching `country|location`
    countryDiv: Option<Tag>)  // <div>, class matching `country|location`

  // ---------------------------------------------------------------------------------------------
  // RFQ number and link.

  /** The RFQ link's href when the link exists and the href is non-empty (`rfq_link and rfq_link.get('href')`), else `''`. */
  function LinkHref(e: RfqElement): (href: string)
    ensures href != [] <==> e.idLink.Some? && Attr(e.idLink.value, "href").Some? && Attr(e.idLink.value, "href").value != []
    ensures href != [] ==> href == e.idLink.value.attrs["href"]
  {
    if e.idLink.Some? && Attr(e.idLink.value, "href").Some? then Attr(e.idLink.value, "href").value else ""
  }

  /**
   * RFQ_ID: `''`, or the whole run of digits after the first `rfq_id=` or `rfq_id:` in the href
   * that is followed by a digit.
   */
  function RfqIdOf(e: RfqElement): (id: string)
    ensures id == [] || IsDigitString(id)
    ensures id == [] <==> forall p: nat :: p <= |LinkHref(e)| ==> RfqIdAt(LinkHref(e), p).None?
    ensures id != [] ==> exists p: nat | p <= |LinkHref(e)| ::
      RfqIdAt(LinkHref(e), p).Some? && id == LinkHref(e)[p + 7..RfqIdAt(LinkHref(e), p).value.end]
      && forall q :: 0 <= q < p ==> RfqIdAt(LinkHref(e), q).None?
  {
    var href := LinkHref(e);
    if href != [] && RfqId(href).Some? then RfqId(href).value else ""
  }

  /** Inquiry_URL: `''` without an href, else the href made absolute against the site. */
  function UrlOf(e: RfqElement): (url: string)
    ensures url == [] <==> LinkHref(e) == []
    ensures url != [] ==> StartsWith(url, "http") && EndsWith(url, LinkHref(e))
    ensures StartsWith(LinkHref(e), "http") ==> url == LinkHref(e)
    ensures LinkHref(e) != [] && !StartsWith(LinkHref(e), "http") ==> url == Origin + LinkHref(e)
  {
    var href := LinkHref(e);
    if href != [] then Absolute(href) else ""
  }

  /** An RFQ number is only ever read from a link, and that link is recorded too. */
  lemma IdComesWithUrl(e: RfqElement)
    ensures RfqIdOf(e) != [] ==> UrlOf(e) != [] && Contains(UrlOf(e), RfqIdOf(e))
  {
    var h := LinkHref(e);
    RfqIdOccurs(h);
    if RfqIdOf(e) != [] {
      ContainedInSuffix(UrlOf(e), h, RfqIdOf(e));
    }
  }

  // ---------------------------------------------------------------------------------------------
  // Title, buyer and image.

  /** Title: the stripped text of the first of the title link, `<h3>` and `<h4>` that exists. */
  function TitleOf(e: RfqElement): (t: string)
    ensures Strip(t) == t
    ensures e.titleLink.Some? ==> t == GetText(e.titleLink.value)
    ensures e.titleLink.None? && e.h3.Some? ==> t == GetText(e.h3.value)
    ensures e.titleLink.None? && e.h3.None? && e.h4.Some? ==> t == GetText(e.h4.value)
    ensures e.titleLink.None? && e.h3.None? && e.h4.None? ==> t == []
  {
    var found := if e.titleLink.Some? then e.titleLink else if e.h3.Some? then e.h3 else e.h4;
    if found.Some? then
      StrippedTextIsStripped(found.value.strings);
      GetText(found.value)
    else ""
  }

  /** `From:|By:`, case-sensitive, tried at `p`. */
  function FromOrByAt(s: string, p: nat): (r: Option<Span>)
    ensures r.Some? ==> r.value.start == p <= r.value.end <= |s| && (OccursAt(s, "From:", p) || OccursAt(s, "By:", p))
  {
    if OccursAt(s, "From:", p) then Some(Span(p, p + 5))
    else if OccursAt(s, "By:", p) then Some(Span(p, p + 3))
    else None
  }

  /**
   * Buyer_Name: the stripped text of the buyer `<span>`, else of the buyer `<div>`, else the
   * first text node holding `From:` or `By:`, stripped. A text node has `get_text` too, so the
   * branch that would read its parent is never taken.
   */
  function BuyerOf(e: RfqElement): (b: string)
    ensures Strip(b) == b
    ensures e.buyerSpan.Some? ==> b == GetText(e.buyerSpan.value)
    ensures e.buyerSpan.None? && e.buyerDiv.Some? ==> b == GetText(e.buyerDiv.value)
    ensures e.buyerSpan.None? && e.buyerDiv.None? && b != [] ==>
      exists k :: 0 <= k < |e.soup.strings| && b == Strip(e.soup.strings[k])
                  && (Contains(e.soup.strings[k], "From:") || Contains(e.soup.strings[k], "By:"))
    ensures e.buyerSpan.None? && e.buyerDiv.None? ==>
      b == (if FindText(FromOrByAt, e.soup.strings).Some? then Strip(FindText(FromOrByAt, e.soup.strings).value) else [])
  {
    var found := if e.buyerSpan.Some? then e.buyerSpan else e.buyerDiv;
    if found.Some? then
      StrippedTextIsStripped(found.value.strings);
      GetText(found.value)
    else
      match FindText(FromOrByAt, e.soup.strings)
      case None => ""
      case Some(node) =>
        var p: nat :| p <= |node| && Hits(FromOrByAt, node, p);
        assert OccursAt(node, "From:", p) || OccursAt(node, "By:", p);
        StripIdempotent(node);
        Strip(node)
  }

  /** Buyer_Image: the avatar's `src` when the image exists and the attribute is non-empty, else `''`. */
  function ImageOf(e: RfqElement): (src: string)
    ensures src != [] <==> e.avatar.Some? && "src" in e.avatar.value.attrs && e.avatar.value.attrs["src"] != []
    ensures src != [] ==> src == e.avatar.value.attrs["src"]
  {
    if e.avatar.Some? && Attr(e.avatar.value, "src").Some? then Attr(e.avatar.value, "src").value else ""
  }

  // ---------------------------------------------------------------------------------------------
  // Inquiry time, quotes, country and quantity: patterns over the text nodes.

  /** `(yesterday|today)` with re.I, tried at `p`. */
  function DayWordAt(s: string, p: nat): (r: Option<Span>)
    ensures r.Some? ==> r.value.start == p <= r.value.end <= |s|
    ensures r.Some? ==> p < |s| && (LowerChar(s[p]) == 'y' || LowerChar(s[p]) == 't')
  {
    var words := ["yesterday", "today"];
    var r := AlternativesAt(words, s, p);
    assert r.Some? ==> AtCI(s, p, words[0]) || AtCI(s, p, words[1]);
    assert AtCI(s, p, words[0]) ==> LowerChar(s[p + 0]) == words[0][0] == 'y';
    assert AtCI(s, p, words[1]) ==> LowerChar(s[p + 0]) == words[1][0] == 't';
    r
  }

  const RfqTimePatterns: seq<Anchored> := [TimeAgoAt, DayWordAt]

  /** A string with a character that is not white space does not strip to nothing. */
  lemma NotBlank(s: string, i: nat)
    requires i < |s| && !IsSpace(s[i])
    ensures Strip(s) != []
  {
  }

  /** When every match of a pattern starts on a character that is not white space, a node it is found in is not blank. */
  lemma FoundNotBlank(m: Anchored, ss: seq<string>)
    requires forall s: string, p: nat :: m(s, p).Some? ==> p < |s| && !IsSpace(s[p])
    ensures FindText(m, ss).Some? ==> Strip(FindText(m, ss).value) != []
  {
    if FindText(m, ss).Some? {
      var node := FindText(m, ss).value;
      var p: nat :| p <= |node| && Hits(m, node, p);
      NotBlank(node, p);
    }
  }

  /** A text node with a relative time holds a digit, so it does not strip to nothing. */
  lemma TimeAgoNotBlank(ss: seq<string>)
    ensures FindText(TimeAgoAt, ss).Some? ==> Strip(FindText(TimeAgoAt, ss).value) != []
  {
    FoundNotBlank(TimeAgoAt, ss);
  }

  /** A text node saying yesterday or today holds a letter, so it does not strip to nothing. */
  lemma DayWordNotBlank(ss: seq<string>)
    ensures FindText(DayWordAt, ss).Some? ==> Strip(FindText(DayWordAt, ss).value) != []
  {
    FoundNotBlank(DayWordAt, ss);
  }

  /**
   * The pattern loop of the time step: the first text node where the relative-time pattern
   * matches, stripped; when none does, the first where the day-word pattern matches, stripped.
   */
  function TimeFound(ss: seq<string>): (t: string)
    ensures Strip(t) == t
    ensures FindText(TimeAgoAt, ss).Some? ==> t == Strip(FindText(TimeAgoAt, ss).value) && t != []
    ensures FindText(TimeAgoAt, ss).None? && FindText(DayWordAt, ss).Some? ==> t == Strip(FindText(DayWordAt, ss).value) && t != []
    ensures FindText(TimeAgoAt, ss).None? && FindText(DayWordAt, ss).None? ==> t == []
  {
    var f := (m: Anchored) => FindText(m, ss);
    FirstSomeOfTwo(TimeAgoAt, DayWordAt, f);
    var hit := FirstSome(RfqTimePatterns, f);
    TimeAgoNotBlank(ss);
    DayWordNotBlank(ss);
    if hit.Some? then
      StripIdempotent(hit.value.1);
      Strip(hit.value.1)
    else ""
  }

  /**
   * Inquiry_Time: the first text node with a relative time ("3 days ago"), stripped; else the
   * first one saying yesterday or today, stripped; else the text of the time `<span>`.
   */
  function TimeOf(e: RfqElement): (t: string)
    ensures Strip(t) == t
    ensures FindText(TimeAgoAt, e.soup.strings).Some? ==> t == Strip(FindText(TimeAgoAt, e.soup.strings).value)
    ensures FindText(TimeAgoAt, e.soup.strings).None? && FindText(DayWordAt, e.soup.strings).Some?
            ==> t == Strip(FindText(DayWordAt, e.soup.strings).value)
    ensures FindText(TimeAgoAt, e.soup.strings).None? && FindText(DayWordAt, e.soup.strings).None?
            ==> t == (if e.timeSpan.Some? then GetText(e.timeSpan.value) else [])
  {
    var found := TimeFound(e.soup.strings);
    if found != [] then found
    else if e.timeSpan.Some? then
      StrippedTextIsStripped(e.timeSpan.value.strings);
      GetText(e.timeSpan.value)
    else ""
  }

  /** `re.search(r'(\d+)', s)`: the first run of digits in `s`, taken whole. */
  function FirstDigitRun(s: string): (r: Option<string>)
    ensures r.None? <==> forall i :: 0 <= i < |s| ==> !IsDigit(s[i])
    ensures r.Some? ==> IsDigitString(r.value) && exists p: nat ::
      OccursAt(s, r.value, p) && (forall i :: 0 <= i < p ==> !IsDigit(s[i]))
      && (p + |r.value| == |s| || !IsDigit(s[p + |r.value|]))
  {
    assert forall q: nat :: q < |s| && IsDigit(s[q]) ==> Hits(DigitRunAt, s, q);
    match SearchFrom(DigitRunAt, s, 0)
    case None => None
    case Some(mt) =>
      var v := s[mt.at..mt.group.end];
      assert OccursAt(s, v, mt.at);
      Some(v)
  }

  /**
   * Quotes_Left: `''`, or the first run of digits of the first text node matching
   * `\d+\s*quotes?\s*left` (re.I). That is the node's first number, which need not be the one
   * before "quotes left".
   */
  function QuotesOf(e: RfqElement): (q: string)
    ensures q == [] || IsDigitString(q)
    ensures q != [] <==> FindText(QuotesLeftAt, e.soup.strings).Some?
    ensures q != [] ==> FirstDigitRun(FindText(QuotesLeftAt, e.soup.strings).value) == Some(q)
  {
    match FindText(QuotesLeftAt, e.soup.strings)
    case None => ""
    case Some(node) =>
      var p: nat :| p <= |node| && Hits(QuotesLeftAt, node, p);
      var end := QuotesLeftAt(node, p).value.end;
      assert node[p..end][0] == node[p];
      match FirstDigitRun(node)
      case None => ""
      case Some(d) => d
  }

  /**
   * A node that opens with a number followed by anything but a digit gives that number, even
   * when a different number stands before "quotes left" ("2 days ago, 5 quotes left" gives 2).
   */
  lemma QuotesTakeFirstNumber(d: string, rest: string)
    requires IsDigitString(d) && rest != [] && !IsDigit(rest[0])
    ensures FirstDigitRun(d + rest) == Some(d)
  {
    var s := d + rest;
    var r := FirstDigitRun(s).value;
    var p: nat :| OccursAt(s, r, p) && (forall i :: 0 <= i < p ==> !IsDigit(s[i]))
                  && (p + |r| == |s| || !IsDigit(s[p + |r|]));
    assert s[0] == d[0];
    assert p == 0;
    assert r == s[..|d|] == d;
  }

  const RfqCountryNames: seq<string> := ["United States", "China", "India", "Germany", "UK", "UAE"]

  /** `\b[A-Z]{2}\b|\b(United States|China|India|Germany|UK|UAE)\b`, case-sensitive, tried at `p`. */
  function RfqCountryAt(s: string, p: nat): (r: Option<Span>)
    ensures r.Some? ==> Boundary(s, p) && r.value.start == p <= r.value.end <= |s| && Boundary(s, r.value.end)
    ensures r.Some? ==> CapsAt(s, p, 2) || exists k :: 0 <= k < |RfqCountryNames| && OccursAt(s, RfqCountryNames[k], p)
  {
    if !Boundary(s, p) then None
    else if CapsAt(s, p, 2) && Boundary(s, p + 2) then Some(Span(p, p + 2))
    else
      match BoundedWordAt(RfqCountryNames, s, p, false)
      case None => None
      case Some(end) => Some(Span(p, end))
  }

  /**
   * Country: the stripped text of the country `<span>`, else of the country `<div>`, else the
   * first text node holding a two-capital code or one of six country names, stripped.
   */
  function CountryOf(e: RfqElement): (c: string)
    ensures Strip(c) == c
    ensures e.countrySpan.Some? ==> c == GetText(e.countrySpan.value)
    ensures e.countrySpan.None? && e.countryDiv.Some? ==> c == GetText(e.countryDiv.value)
    ensures e.countrySpan.None? && e.countryDiv.None? && c != [] ==>
      exists k :: 0 <= k < |e.soup.strings| && c == Strip(e.soup.strings[k]) && Search(RfqCountryAt, e.soup.strings[k]).Some?
                  && forall j :: 0 <= j < k ==> Search(RfqCountryAt, e.soup.strings[j]).None?
    ensures e.countrySpan.None? && e.countryDiv.None? ==>
      c == (if FindText(RfqCountryAt, e.soup.strings).Some? then Strip(FindText(RfqCountryAt, e.soup.strings).value) else [])
  {
    var found := if e.countrySpan.Some? then e.countrySpan else e.countryDiv;
    if found.Some? then
      StrippedTextIsStripped(found.value.strings);
      GetText(found.value)
    else
      match FindText(RfqCountryAt, e.soup.strings)
      case None => ""
      case Some(node) =>
        StripIdempotent(node);
        Strip(node)
  }

  const RfqUnits: seq<string> := ["piece", "box", "bag", "unit", "kg", "ton", "meter", "yard"]

  /** `\d+[\s,]*\d*\s*(piece|box|bag|unit|kg|ton|meter|yard)s?` with re.I, tried at `p`. */
  function UnitAmountAt(s: string, p: nat): (r: Option<Span>)
    ensures r.Some? ==> r.value.start == p < r.value.end <= |s| && IsDigit(s[p])
  {
    UnitQuantityAt(RfqUnits, s, p)
  }

  /** `quantity[:\s]*(\d+[\s,]*\d*\s*\w+)` with re.I, tried at `p`; the whole match is used. */
  function QuantityWordAt(s: string, p: nat): (r: Option<Span>)
    ensures r.Some? ==> r.value.start == p < r.value.end <= |s| && (s[p] == 'q' || s[p] == 'Q')
  {
    var r := KeywordQuantityAt("quantity", s, p);
    assert r.Some? ==> LowerChar(s[p + 0]) == "quantity"[0];
    r
  }

  const RfqQuantityPatterns: seq<Anchored> := [UnitAmountAt, QuantityWordAt]

  /** What a quantity match starts with: the amount's first digit or the keyword's first letter. */
  predicate QuantityHead(c: char) { IsDigit(c) || c == 'q' || c == 'Q' }

  /**
   * A pattern whose every match starts where it is tried, with a character `head` accepts and
   * `strip()` does not remove: what `re.search` returns survives stripping, head first.
   */
  lemma StrippedGroup(m: Anchored, s: string)
    requires Search(m, s).Some?
    requires forall p: nat :: p <= |s| && Hits(m, s, p) ==>
      m(s, p).value.start == p < m(s, p).value.end && QuantityHead(s[p])
    ensures Strip(Search(m, s).value) != [] && QuantityHead(Strip(Search(m, s).value)[0])
  {
    SearchGroup(m, s);
    var p: nat :| p <= |s| && Hits(m, s, p) && Search(m, s).value == s[m(s, p).value.start..m(s, p).value.end];
    var g := Search(m, s).value;
    assert g[0] == s[p];
    StripKeepsHead(g);
  }

  /**
   * Quantity_Required: the whole match of the unit pattern in the first text node where it
   * matches, stripped; when no node matches it, the same for the `quantity` pattern; else `''`.
   */
  function QuantityOf(e: RfqElement): (q: string)
    ensures Strip(q) == q
    ensures q != [] <==> FindText(UnitAmountAt, e.soup.strings).Some? || FindText(QuantityWordAt, e.soup.strings).Some?
    ensures q != [] ==> QuantityHead(q[0])
    ensures FindText(UnitAmountAt, e.soup.strings).Some? ==>
      q == Strip(Search(UnitAmountAt, FindText(UnitAmountAt, e.soup.strings).value).value)
    ensures FindText(UnitAmountAt, e.soup.strings).None? && FindText(QuantityWordAt, e.soup.strings).Some? ==>
      q == Strip(Search(QuantityWordAt, FindText(QuantityWordAt, e.soup.strings).value).value)
  {
    var ss := e.soup.strings;
    var f := (m: Anchored) => FindText(m, ss);
    FirstSomeOfTwo(UnitAmountAt, QuantityWordAt, f);
    match FirstSome(RfqQuantityPatterns, f)
    case None => ""
    case Some(hit) =>
      var m := RfqQuantityPatterns[hit.0];
      match Search(m, hit.1)
      case None => ""
      case Some(g) =>
        StrippedGroup(m, hit.1);
        StripIdempotent(g);
        Strip(g)
  }

  // ---------------------------------------------------------------------------------------------
  // Badges: keyword tests over `soup.get_text().lower()`.

  const EmailConfirmedWords: seq<string> := ["email confirmed", "verified email", "email verified"]
  const ExperiencedWords: seq<string> := ["experienced", "expert", "professional"]
  const CompletedWords: seq<string> := ["completed", "finished", "done"]
  const TypicalReplyWords: seq<string> := ["typical reply", "quick reply", "fast response"]
  const InteractiveWords: seq<string> := ["interactive", "active", "online"]

  /** The text the badges are looked for in: every text node joined, lower-cased. */
  function BadgeText(e: RfqElement): string {
    Lower(AllText(e.soup))
  }

  /** A further text node never turns a badge off. */
  lemma BadgeKeptWithMoreText(strings: seq<string>, node: string, words: seq<string>)
    requires ContainsAny(Lower(Concat(strings)), words)
    ensures ContainsAny(Lower(Concat(strings + [node])), words)
  {
    var w :| w in words && Contains(Lower(Concat(strings)), w);
    assert (strings + [node])[..|strings|] == strings;
    assert Lower(Concat(strings + [node])) == Lower(Concat(strings)) + Lower(node);
    ContainsInPart("", Lower(Concat(strings)), Lower(node), w);
    assert "" + Lower(Concat(strings)) + Lower(node) == Lower(Concat(strings + [node]));
  }

  /** "interactive" holds "active", so the Interactive badge is set exactly by "active" or "online". */
  lemma InteractiveByActiveOrOnline(text: string)
    ensures ContainsAny(text, InteractiveWords) <==> Contains(text, "active") || Contains(text, "online")
  {
    if Contains(text, "interactive") {
      var i: nat :| i <= |text| && OccursAt(text, "interactive", i);
      assert text[i + 5..i + 11] == text[i..i + 11][5..11];
      assert OccursAt(text, "active", i + 5);
    }
    if Contains(text, "active") {
      assert "active" in InteractiveWords;
    }
    if Contains(text, "online") {
      assert "online" in InteractiveWords;
    }
  }

  // ---------------------------------------------------------------------------------------------
  // The record.

  /**
   * What `extract_rfq_data` returns: the defaults, with each field set by its extraction step.
   * `date` is the clock's `%Y-%m-%d %H:%M:%S` reading.
   */
  function RfqRecord(e: RfqElement, date: string): (r: Record)
    ensures r.rfqId == [] || IsDigitString(r.rfqId)
    ensures r.rfqId != [] ==> r.inquiryUrl != []
    ensures r.inquiryUrl == [] || StartsWith(r.inquiryUrl, "http")
    ensures Strip(r.title) == r.title && Strip(r.buyerName) == r.buyerName && Strip(r.inquiryTime) == r.inquiryTime
    ensures Strip(r.country) == r.country && Strip(r.quantityRequired) == r.quantityRequired
    ensures r.quotesLeft == [] || IsDigitString(r.quotesLeft)
    ensures r.emailConfirmed == Yes <==> ContainsAny(BadgeText(e), EmailConfirmedWords)
    ensures r.experienced == Yes <==> ContainsAny(BadgeText(e), ExperiencedWords)
    ensures r.completed == Yes <==> ContainsAny(BadgeText(e), CompletedWords)
    ensures r.typicalReply == Yes <==> ContainsAny(BadgeText(e), TypicalReplyWords)
    ensures r.interactive == Yes <==> ContainsAny(BadgeText(e), InteractiveWords)
    ensures r.inquiryDate == [] && r.scrapingDate == date
    ensures r.rfqId == RfqIdOf(e) && r.inquiryUrl == UrlOf(e) && r.title == TitleOf(e)
    ensures r.buyerName == BuyerOf(e) && r.buyerImage == ImageOf(e) && r.inquiryTime == TimeOf(e)
    ensures r.quotesLeft == QuotesOf(e) && r.country == CountryOf(e) && r.quantityRequired == QuantityOf(e)
  {
    IdComesWithUrl(e);
    var text := BadgeText(e);
    Record(
      RfqIdOf(e), TitleOf(e), BuyerOf(e), ImageOf(e), TimeOf(e), QuotesOf(e), CountryOf(e), QuantityOf(e),
      FlagOf(ContainsAny(text, EmailConfirmedWords)), FlagOf(ContainsAny(text, ExperiencedWords)),
      FlagOf(ContainsAny(text, CompletedWords)), FlagOf(ContainsAny(text, TypicalReplyWords)),
      FlagOf(ContainsAny(text, InteractiveWords)),
      UrlOf(e), "", date)
  }

  // ---------------------------------------------------------------------------------------------
  // `extract_rfq_data`, step by step.

  /** The time step: the pattern loop with its `break`, then the time `<span>` when it found nothing. */
  method FindTime(e: RfqElement) returns (t: string)
    ensures t == TimeOf(e)
  {
    t := "";
    var hit := FirstSomeOf(RfqTimePatterns, (m: Anchored) => FindText(m, e.soup.strings));
    if hit.Some? {
      t := Strip(hit.value.1);
    }
    if t == [] && e.timeSpan.Some? {
      t := GetText(e.timeSpan.value);
    }
  }

  /** The quantity step: the pattern loop, which stops at the first text node a pattern matches. */
  method FindQuantity(e: RfqElement) returns (q: string)
    ensures q == QuantityOf(e)
  {
    q := "";
    var hit := FirstSomeOf(RfqQuantityPatterns, (m: Anchored) => FindText(m, e.soup.strings));
    if hit.Some? {
      var g := Search(RfqQuantityPatterns[hit.value.0], hit.value.1);
      if g.Some? {
        q := Strip(g.value);
      }
    }
  }

  /** The RFQ-number step: both fields are set only when the link has an href. */
  method FindLink(e: RfqElement) returns (id: string, url: string)
    ensures id == RfqIdOf(e) && url == UrlOf(e)
  {
    id, url := "", "";
    var href := LinkHref(e);
    if href != [] {
      var m := RfqId(href);
      if m.Some? {
        id := m.value;
      }
      url := Absolute(href);
    }
  }

  /** The title step. */
  method FindTitle(e: RfqElement) returns (title: string)
    ensures title == TitleOf(e)
  {
    title := "";
    var elem := if e.titleLink.Some? then e.titleLink else if e.h3.Some? then e.h3 else e.h4;
    if elem.Some? {
      title := GetText(elem.value);
    }
  }

  /** The buyer step. */
  method FindBuyer(e: RfqElement) returns (buyer: string)
    ensures buyer == BuyerOf(e)
  {
    buyer := "";
    var elem := if e.buyerSpan.Some? then e.buyerSpan else e.buyerDiv;
    if elem.Some? {
      buyer := GetText(elem.value);
    } else {
      var node := FindText(FromOrByAt, e.soup.strings);
      if node.Some? {
        buyer := Strip(node.value);
      }
    }
  }

  /** The buyer-image step. */
  method FindImage(e: RfqElement) returns (src: string)
    ensures src == ImageOf(e)
  {
    src := "";
    if e.avatar.Some? {
      var v := Attr(e.avatar.value, "src");
      if v.Some? && v.value != [] {
        src := v.value;
      }
    }
  }

  /** The quotes-left step. */
  method FindQuotes(e: RfqElement) returns (quotes: string)
    ensures quotes == QuotesOf(e)
  {
    quotes := "";
    var node := FindText(QuotesLeftAt, e.soup.strings);
    if node.Some? {
      var digits := FirstDigitRun(node.value);
      if digits.Some? {
        quotes := digits.value;
      }
    }
  }

  /** The country step. */
  method FindCountry(e: RfqElement) returns (country: string)
    ensures country == CountryOf(e)
  {
    country := "";
    var elem := if e.countrySpan.Some? then e.countrySpan else e.countryDiv;
    if elem.Some? {
      country := GetText(elem.value);
    } else {
      var node := FindText(RfqCountryAt, e.soup.strings);
      if node.Some? {
        country := Strip(node.value);
      }
    }
  }

  /** The defaults, then each extraction step in source order, each assigning what it found. */
  method ExtractRfqData(e: RfqElement, date: string) returns (r: Record)
    ensures r == RfqRecord(e, date)
  {
    r := Blank("", date);
    var id, url := FindLink(e);
    r := r.(rfqId := id, inquiryUrl := url);
    var title := FindTitle(e);
    r := r.(title := title);
    var buyer := FindBuyer(e);
    r := r.(buyerName := buyer);
    var image := FindImage(e);
    r := r.(buyerImage := image);
    var time := FindTime(e);
    r := r.(inquiryTime := time);
    var quotes := FindQuotes(e);
    r := r.(quotesLeft := quotes);
    var country := FindCountry(e);
    r := r.(country := country);
    var quantity := FindQuantity(e);
    r := r.(quantityRequired := quantity);
    var text := BadgeText(e);
    if ContainsAny(text, EmailConfirmedWords) {
      r := r.(emailConfirmed := Yes);
    }
    if ContainsAny(text, ExperiencedWords) {
      r := r.(experienced := Yes);
    }
    if ContainsAny(text, CompletedWords) {
      r := r.(completed := Yes);
    }
    if ContainsAny(text, TypicalReplyWords) {
      r := r.(typicalReply := Yes);
    }
    if ContainsAny(text, InteractiveWords) {
      r := r.(interactive := Yes);
    }
  }

  // ---------------------------------------------------------------------------------------------
  // `scrape_page`: the elements of one page, de-duplicated, each turned into a record.

  /** The gate: a record is kept when it has a title or an RFQ number. */
  predicate Passes(r: Record) {
    r.title != [] || r.rfqId != []
  }

  /** What the element at one position of the loop contributes to `page_data`. */
  function PageRecord(e: RfqElement, date: string): (r: Option<Record>)
    ensures r.Some? <==> TitleOf(e) != [] || RfqIdOf(e) != []
    ensures r.Some? ==> r.value == RfqRecord(e, date) && Passes(r.value)
  {
    var rec := RfqRecord(e, date);
    if Passes(rec) then Some(rec) else None
  }

  /** `elem.get_attribute('outerHTML')[:200]`: what identifies an element. */
  function OuterKey(e: RfqElement): string {
    Take(e.outerHtml, 200)
  }

  /** Every identifier takes part in the de-duplication. */
  predicate AnyKey(k: string) {
    true
  }

  /** The elements kept by the `seen_html` loop. */
  function UniqueElements(found: seq<RfqElement>): seq<RfqElement> {
    Dedup(found, OuterKey, AnyKey)
  }

  /**
   * The kept elements are the first element of each identifier, in page order: each sits at
   * a position of the input that no earlier element shares its identifier with, and these
   * positions increase.
   */
  lemma UniqueElementsInOrder(found: seq<RfqElement>)
    ensures var u, ix := UniqueElements(found), KeptIndices(found, OuterKey, AnyKey);
      && |ix| == |u|
      && (forall a :: 0 <= a < |u| ==> ix[a] < |found| && u[a] == found[ix[a]]
                                       && forall j :: 0 <= j < ix[a] ==> OuterKey(found[j]) != OuterKey(u[a]))
      && (forall a, b :: 0 <= a < b < |u| ==> ix[a] < ix[b])
  {
    var u, ix := UniqueElements(found), KeptIndices(found, OuterKey, AnyKey);
    DedupKept(found, OuterKey, AnyKey);
    forall a | 0 <= a < |u|
      ensures forall j :: 0 <= j < ix[a] ==> OuterKey(found[j]) != OuterKey(u[a])
    {
      assert ix[a] in ix;
    }
  }

  /** No two kept elements share an identifier, and every identifier on the page is kept. */
  lemma UniqueElementsDistinct(found: seq<RfqElement>)
    ensures forall a, b :: 0 <= a < b < |UniqueElements(found)| ==>
      OuterKey(UniqueElements(found)[a]) != OuterKey(UniqueElements(found)[b])
    ensures forall i :: 0 <= i < |found| ==>
      exists a :: 0 <= a < |UniqueElements(found)| && OuterKey(UniqueElements(found)[a]) == OuterKey(found[i])
  {
    var u := UniqueElements(found);
    DedupKeysDistinct(found, OuterKey, AnyKey);
    DedupCovers(found, OuterKey, AnyKey);
    forall i | 0 <= i < |found|
      ensures exists a :: 0 <= a < |u| && OuterKey(u[a]) == OuterKey(found[i])
    {
      assert AnyKey(OuterKey(found[i]));
      var a :| 0 <= a < |u| && OuterKey(u[a]) == OuterKey(found[i]);
    }
  }

  /** The records of one page: `clock(pageNum, i)` is the clock's reading for the `i`-th kept element. */
  function PageData(pageNum: int, found: seq<RfqElement>, clock: (int, nat) -> string): seq<Record> {
    Collect(UniqueElements(found), (e: RfqElement, i: nat) => PageRecord(e, clock(pageNum, i)))
  }

  /** Every record of a page passes the gate, and there are no more records than kept elements. */
  lemma PageDataPasses(pageNum: int, found: seq<RfqElement>, clock: (int, nat) -> string)
    ensures |PageData(pageNum, found, clock)| <= |UniqueElements(found)|
    ensures forall a :: 0 <= a < |PageData(pageNum, found, clock)| ==> Passes(PageData(pageNum, found, clock)[a])
  {
    var u := UniqueElements(found);
    var f := (e: RfqElement, i: nat) => PageRecord(e, clock(pageNum, i));
    forall i | 0 <= i < |u| && f(u[i], i).Some?
      ensures Passes(f(u[i], i).value)
    {
      assert f(u[i], i) == PageRecord(u[i], clock(pageNum, i));
    }
    CollectAll(u, f, Passes);
  }

  /** The selector loop: each selector's elements appended in turn. */
  method GatherElements(perSelector: seq<seq<RfqElement>>) returns (found: seq<RfqElement>)
    ensures found == Flatten(perSelector)
  {
    found := [];
    for k := 0 to |perSelector|
      invariant found == Flatten(perSelector[..k])
    {
      assert perSelector[..k + 1][..k] == perSelector[..k];
      found := found + perSelector[k];
    }
    assert perSelector[..|perSelector|] == perSelector;
  }

  /** The body of the record loop: extract, then keep the record when it has a title or an RFQ number. */
  method KeepRecord(e: RfqElement, date: string) returns (r: Option<Record>)
    ensures r == PageRecord(e, date)
  {
    var rec := ExtractRfqData(e, date);
    if rec.title != [] || rec.rfqId != [] {
      return Some(rec);
    }
    return None;
  }

  /** The record loop over the kept elements. */
  method ExtractPage(pageNum: int, unique: seq<RfqElement>, clock: (int, nat) -> string) returns (pageData: seq<Record>)
    ensures pageData == Collect(unique, (e: RfqElement, i: nat) => PageRecord(e, clock(pageNum, i)))
  {
    pageData := [];
    for i := 0 to |unique|
      invariant pageData == Collect(unique[..i], (e: RfqElement, i: nat) => PageRecord(e, clock(pageNum, i)))
    {
      var r := KeepRecord(unique[i], clock(pageNum, i));
      CollectStep(unique, (e: RfqElement, i: nat) => PageRecord(e, clock(pageNum, i)), i);
      if r.Some? {
        pageData := pageData + [r.value];
      }
    }
    assert unique[..|unique|] == unique;
  }

  /**
   * `scrape_page` once the browser has shown the page: the URL it asks for, the elements each
   * selector found (`perSelector`, in selector order), their de-duplication and the record loop.
   */
  method ScrapePage(pageNum: int, perSelector: seq<seq<RfqElement>>, clock: (int, nat) -> string)
    returns (url: string, pageData: seq<Record>)
    ensures url == PageUrl(pageNum)
    ensures pageData == PageData(pageNum, Flatten(perSelector), clock)
  {
    if pageNum > 1 {
      url := BaseUrl + Params + "&page=" + NatToString(pageNum);
    } else {
      url := BaseUrl + Params;
    }
    var found := GatherElements(perSelector);
    var unique := KeepFirst(found, OuterKey, AnyKey);
    pageData := ExtractPage(pageNum, unique, clock);
  }

  // ---------------------------------------------------------------------------------------------
  // `scrape_multiple_pages`.

  /** The records of pages 1 to `n`, page after page: what `all_data.extend(page_data)` builds. */
  function AllPages(n: int, site: int -> seq<seq<RfqElement>>, clock: (int, nat) -> string): seq<Record>
    decreases n
  {
    if n < 1 then [] else AllPages(n - 1, site, clock) + PageData(n, Flatten(site(n)), clock)
  }

  /** Every record gathered from any number of pages passes the gate. */
  lemma {:induction false} AllPagesPass(n: int, site: int -> seq<seq<RfqElement>>, clock: (int, nat) -> string)
    ensures forall a :: 0 <= a < |AllPages(n, site, clock)| ==> Passes(AllPages(n, site, clock)[a])
    decreases n
  {
    if n >= 1 {
      AllPagesPass(n - 1, site, clock);
      PageDataPasses(n, Flatten(site(n)), clock);
    }
  }

  /** The page loop of `scrape_multiple_pages`: pages 1 to `numPages`, each page's records appended. */
  method ScrapePages(numPages: int, site: int -> seq<seq<RfqElement>>, clock: (int, nat) -> string)
    returns (allData: seq<Record>)
    ensures allData == AllPages(numPages, site, clock)
  {
    allData := [];
    var page := 1;
    while page <= numPages
      invariant 1 <= page <= if numPages >= 1 then numPages + 1 else 1
      invariant allData == AllPages(page - 1, site, clock)
    {
      var url, pageData := ScrapePage(page, site(page), clock);
      allData := allData + pageData;
      page := page + 1;
    }
  }

  /**
   * The scraper object: `data` holds the records of the last successful run. The browser is an
   * input here: `driverReady` is what `setup_driver` reported and `site(n)` the elements each
   * selector finds on page `n`.
   */
  class AlibabaRfqScraper {
    var data: seq<Record>

    constructor()
      ensures data == []
    {
      data := [];
    }

    /** Pages 1 to `numPages` in order; without a driver nothing is scraped and `data` is left alone. */
    method ScrapeMultiplePages(numPages: int, driverReady: bool, site: int -> seq<seq<RfqElement>>,
                               clock: (int, nat) -> string) returns (ok: bool)
      modifies this
      ensures ok == driverReady
      ensures ok ==> data == AllPages(numPages, site, clock)
      ensures !ok ==> data == old(data)
    {
      if !driverReady {
        return false;
      }
      data := ScrapePages(numPages, site, clock);
      return true;
    }
  }
}
