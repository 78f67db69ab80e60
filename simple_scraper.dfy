/**
 * The simple scraper: a record per listing element, built from the element's stripped text and
 * its title candidates, then a de-duplication of the page's records by title prefix.
 */
module SimpleScraper {
  import opened Wrappers
  import opened Text
  import opened Sequences
  import opened Patterns
  import opened Markup
  import opened Records
  import opened Site

  /**
   * A listing element and, in this order, what `element.find` returns for its title candidates:
   * the link whose href mentions "rfq", `h1`, `h2`, `h3`, `h4`, the `div` and the `span` whose
   * class mentions "title".
   */
  datatype Element = Element(tag: Tag, titleCandidates: seq<Option<Tag>>)

  /** The element's stripped text, or the default when there is no element. */
  function SafeExtractText(element: Option<Tag>, default: string): (r: string)
    ensures element.None? ==> r == default
    ensures element.Some? ==> Strip(r) == r && (r == [] <==> forall k :: 0 <= k < |element.value.strings| ==> Strip(element.value.strings[k]) == [])
  {
    if element.Some? then
      StrippedTextIsStripped(element.value.strings);
      StrippedTextEmpty(element.value.strings);
      GetText(element.value)
    else default
  }

  /** The attribute's value, or the default when the element or the attribute is missing. */
  function SafeExtractAttribute(element: Option<Tag>, attr: string, default: string): (r: string)
    ensures element.Some? && attr in element.value.attrs ==> r == element.value.attrs[attr]
    ensures !(element.Some? && attr in element.value.attrs) ==> r == default
  {
    if element.Some? then (match Attr(element.value, attr) case Some(v) => v case None => default) else default
  }

  predicate IsTitleCandidate(c: Option<Tag>) {
    c.Some? && |GetText(c.value)| > 5
  }

  /** The inquiry URL of a title link: absolute links kept, site-relative ones completed, others dropped. */
  function LinkUrl(href: string): (url: string)
    ensures url == [] <==> !(StartsWith(href, "http") || StartsWith(href, "/"))
    ensures url != [] ==> StartsWith(url, "http") && EndsWith(url, href)
    ensures StartsWith(href, "http") ==> url == href
  {
    if StartsWith(href, "http") then href
    else if StartsWith(href, "/") then Origin + href
    else ""
  }

  /** Where this scraper keeps a link at all, it completes it as `Site.Absolute` does. */
  lemma LinkUrlIsAbsolute(href: string)
    requires StartsWith(href, "http") || StartsWith(href, "/")
    ensures LinkUrl(href) == Absolute(href)
  {
  }

  /**
   * The title and the inquiry URL the first candidate with more than five characters of text
   * gives; the URL only when that candidate is a link.
   */
  function TitleAndUrl(cs: seq<Option<Tag>>): (r: (string, string))
    ensures |r.0| <= 200
    ensures r.0 == [] <==> forall k :: 0 <= k < |cs| ==> !IsTitleCandidate(cs[k])
    ensures r.0 != [] ==> exists k :: 0 <= k < |cs| && IsTitleCandidate(cs[k])
                                      && r.0 == Take(GetText(cs[k].value), 200)
                                      && (r.1 != [] ==> cs[k].value.name == "a")
                                      && r.1 == (if cs[k].value.name == "a"
                                                 then LinkUrl(SafeExtractAttribute(cs[k], "href", "")) else "")
                                      && forall j :: 0 <= j < k ==> !IsTitleCandidate(cs[j])
    ensures r.0 == [] ==> r.1 == []
    ensures r.1 != [] ==> StartsWith(r.1, "http")
  {
    match Find(cs, IsTitleCandidate)
    case None => ("", "")
    case Some(k) =>
      var t := cs[k].value;
      (Take(GetText(t), 200), if t.name == "a" then LinkUrl(SafeExtractAttribute(cs[k], "href", "")) else "")
  }

  const BuyerPatterns: seq<Anchored> := [
    (s: string, p: nat) => FramedAt("from", s, p),
    (s: string, p: nat) => FramedAt("buyer", s, p),
    (s: string, p: nat) => FramedAt("company", s, p)]

  /** The unit words of `(pieces?|units?|boxes?|bags?|kgs?|tons?|meters?|yards?)` before their optional `s`. */
  const Units: seq<string> := ["piece", "unit", "boxe", "bag", "kg", "ton", "meter", "yard"]

  const QuantityPatterns: seq<Anchored> := [
    (s: string, p: nat) => UnitQuantityAt(Units, s, p),
    (s: string, p: nat) => KeywordQuantityAt("quantity", s, p),
    (s: string, p: nat) => KeywordQuantityAt("need", s, p)]

  const TimePatterns: seq<Anchored> := [
    TimeAgoAt,
    (s: string, p: nat) => AlternativesAt(["yesterday", "today", "last week"], s, p),
    DateAt]

  const CountryNames: seq<string> := [
    "United States", "China", "India", "Germany", "France", "UK", "UAE", "Australia", "Canada",
    "Brazil", "Japan", "South Korea"]

  /**
   * `\b([A-Z]{2,3}|United States|China|...)\b`, case-sensitive: a run of two or three capitals
   * standing alone, or one of the listed names.
   */
  function CountryAt(s: string, p: nat): (r: Option<Span>)
    ensures r.Some? ==> r.value.start == p <= r.value.end <= |s| && Boundary(s, p) && Boundary(s, r.value.end)
  {
    if !Boundary(s, p) then None
    else if CapsAt(s, p, 3) && Boundary(s, p + 3) then Some(Span(p, p + 3))
    else if CapsAt(s, p, 2) && Boundary(s, p + 2) then Some(Span(p, p + 2))
    else match BoundedWordAt(CountryNames, s, p, false)
      case Some(e) => Some(Span(p, e))
      case None => None
  }

  const EmailWords: seq<string> := ["verified", "confirmed", "email"]

  const ExperienceWords: seq<string> := ["experienced", "expert", "+ years"]

  /** The title step: the chosen candidate's title and, for a link, its URL; nothing when no candidate qualifies. */
  function WithTitle(rec: Record, cs: seq<Option<Tag>>): Record {
    var tu := TitleAndUrl(cs);
    if tu.0 == [] then rec else rec.(title := tu.0, inquiryUrl := if tu.1 != [] then tu.1 else rec.inquiryUrl)
  }

  /** `for title_elem in title_candidates: ... break` */
  method FillTitle(rec: Record, cs: seq<Option<Tag>>) returns (r: Record)
    ensures r == WithTitle(rec, cs)
  {
    r := rec;
    var k := FindFirst(cs, IsTitleCandidate);
    if k.Some? {
      var t := cs[k.value];
      r := r.(title := Take(SafeExtractText(t, ""), 200));
      if t.value.name == "a" {
        var href := SafeExtractAttribute(t, "href", "");
        var url := LinkUrl(href);
        if url != [] {
          r := r.(inquiryUrl := url);
        }
      }
    }
  }

  /** `match.group(1).strip()[:100]` of the first buyer pattern that matches. */
  function BuyerName(text: string): (r: Option<string>)
    ensures r.Some? <==> FirstSearch(BuyerPatterns, text).Some?
    ensures r.Some? ==> |r.value| <= 100 && r.value == Take(Strip(FirstSearch(BuyerPatterns, text).value), 100)
  {
    match FirstSearch(BuyerPatterns, text)
    case Some(g) => Some(Take(Strip(g), 100))
    case None => None
  }

  /** `match.group(0).strip()[:50]` of the first quantity pattern that matches. */
  function Quantity(text: string): (r: Option<string>)
    ensures r.Some? <==> FirstSearch(QuantityPatterns, text).Some?
    ensures r.Some? ==> |r.value| <= 50 && r.value == Take(Strip(FirstSearch(QuantityPatterns, text).value), 50)
  {
    match FirstSearch(QuantityPatterns, text)
    case Some(g) => Some(Take(Strip(g), 50))
    case None => None
  }

  /** `match.group(0).strip()` of the first time pattern that matches. */
  function InquiryTime(text: string): (r: Option<string>)
    ensures r.Some? <==> FirstSearch(TimePatterns, text).Some?
    ensures r.Some? ==> r.value == Strip(FirstSearch(TimePatterns, text).value)
  {
    match FirstSearch(TimePatterns, text)
    case Some(g) => Some(Strip(g))
    case None => None
  }

  /**
   * The fields read off the element's text by pattern: each is assigned only when its pattern
   * matches, and nothing else changes.
   */
  function MatchedFields(rec: Record, text: string): (r: Record)
    ensures r == rec.(buyerName := r.buyerName, country := r.country, quantityRequired := r.quantityRequired,
                      inquiryTime := r.inquiryTime, quotesLeft := r.quotesLeft)
    ensures r.buyerName == if BuyerName(text).Some? then BuyerName(text).value else rec.buyerName
    ensures r.country == if Search(CountryAt, text).Some? then Search(CountryAt, text).value else rec.country
    ensures r.quantityRequired == if Quantity(text).Some? then Quantity(text).value else rec.quantityRequired
    ensures r.inquiryTime == if InquiryTime(text).Some? then InquiryTime(text).value else rec.inquiryTime
    ensures r.quotesLeft == if QuotesLeft(text).Some? then QuotesLeft(text).value else rec.quotesLeft
    ensures r.buyerName == rec.buyerName || |r.buyerName| <= 100
    ensures r.quantityRequired == rec.quantityRequired || |r.quantityRequired| <= 50
    ensures r.quotesLeft == rec.quotesLeft || IsDigitString(r.quotesLeft)
  {
    var buyer := BuyerName(text);
    var country := Search(CountryAt, text);
    var quantity := Quantity(text);
    var time := InquiryTime(text);
    var quotes := QuotesLeft(text);
    rec.(
      buyerName := if buyer.Some? then buyer.value else rec.buyerName,
      country := if country.Some? then country.value else rec.country,
      quantityRequired := if quantity.Some? then quantity.value else rec.quantityRequired,
      inquiryTime := if time.Some? then time.value else rec.inquiryTime,
      quotesLeft := if quotes.Some? then quotes.value else rec.quotesLeft)
  }

  /** The buyer, country, quantity, time and quotes steps in source order. */
  method FillMatches(rec: Record, text: string) returns (r: Record)
    ensures r == MatchedFields(rec, text)
  {
    r := rec;
    var buyer := FirstHit(BuyerPatterns, text);
    if buyer.Some? {
      r := r.(buyerName := Take(Strip(buyer.value), 100));
    }
    var country := Search(CountryAt, text);
    if country.Some? {
      r := r.(country := country.value);
    }
    var quantity := FirstHit(QuantityPatterns, text);
    if quantity.Some? {
      r := r.(quantityRequired := Take(Strip(quantity.value), 50));
    }
    var time := FirstHit(TimePatterns, text);
    if time.Some? {
      r := r.(inquiryTime := Strip(time.value));
    }
    var quotes := QuotesLeft(text);
    if quotes.Some? {
      r := r.(quotesLeft := quotes.value);
    }
  }

  /** The two badges this scraper sets: each turns to `Yes` when one of its words is in the lower-cased text. */
  function Badges(rec: Record, text: string): (r: Record)
    ensures r == rec.(emailConfirmed := r.emailConfirmed, experienced := r.experienced)
    ensures r.emailConfirmed == Yes <==> rec.emailConfirmed == Yes || ContainsAny(Lower(text), EmailWords)
    ensures r.experienced == Yes <==> rec.experienced == Yes || ContainsAny(Lower(text), ExperienceWords)
  {
    var lower := Lower(text);
    rec.(
      emailConfirmed := if ContainsAny(lower, EmailWords) then Yes else rec.emailConfirmed,
      experienced := if ContainsAny(lower, ExperienceWords) then Yes else rec.experienced)
  }

  /** `element_text_lower = element_text.lower()` and the two `any(...)` tests. */
  method FillBadges(rec: Record, text: string) returns (r: Record)
    ensures r == Badges(rec, text)
  {
    r := rec;
    var lower := Lower(text);
    if ContainsAny(lower, EmailWords) {
      r := r.(emailConfirmed := Yes);
    }
    if ContainsAny(lower, ExperienceWords) {
      r := r.(experienced := Yes);
    }
  }

  /**
   * The record for the element at index `i` of the page, `None` when it is skipped: when its text
   * is shorter than 20 characters, or when no candidate gives a title and the text has at most 50.
   */
  function SimpleRecord(e: Element, i: nat, stamp: Stamp): (r: Option<Record>)
    ensures r.Some? <==> |GetText(e.tag)| >= 20 && (TitleAndUrl(e.titleCandidates).0 != [] || |GetText(e.tag)| > 50)
    ensures r.Some? ==> 0 < |r.value.title| <= 200 && |r.value.buyerName| <= 100 && |r.value.quantityRequired| <= 50
    ensures r.Some? ==> r.value.title == if TitleAndUrl(e.titleCandidates).0 != [] then TitleAndUrl(e.titleCandidates).0
                                         else Backfill(GetText(e.tag))
    ensures r.Some? ==> r.value.inquiryUrl == TitleAndUrl(e.titleCandidates).1
    ensures r.Some? ==> (r.value.emailConfirmed == Yes <==> ContainsAny(Lower(GetText(e.tag)), EmailWords))
    ensures r.Some? ==> (r.value.experienced == Yes <==> ContainsAny(Lower(GetText(e.tag)), ExperienceWords))
    ensures r.Some? ==> r.value.completed == No && r.value.typicalReply == No && r.value.interactive == No
    ensures r.Some? ==> r.value.buyerName == OrEmpty(BuyerName(GetText(e.tag)))
    ensures r.Some? ==> r.value.country == OrEmpty(Search(CountryAt, GetText(e.tag)))
    ensures r.Some? ==> r.value.quantityRequired == OrEmpty(Quantity(GetText(e.tag)))
    ensures r.Some? ==> r.value.inquiryTime == OrEmpty(InquiryTime(GetText(e.tag)))
    ensures r.Some? ==> r.value.quotesLeft == OrEmpty(QuotesLeft(GetText(e.tag)))
    ensures r.Some? ==> r.value.quotesLeft == [] || IsDigitString(r.value.quotesLeft)
    ensures r.Some? ==> r.value.buyerImage == [] && r.value.inquiryDate == [] && r.value.scrapingDate == stamp.date
    ensures r.Some? ==> IndexInId("RFQ_", r.value.rfqId) == i
  {
    var text := GetText(e.tag);
    if |text| < 20 then None
    else
      var filled := Badges(MatchedFields(WithTitle(Blank(GeneratedId("RFQ_", i, stamp.epoch), stamp.date), e.titleCandidates), text), text);
      if filled.title == [] && |text| <= 50 then None
      else
        GeneratedIdRoundTrip("RFQ_", i, stamp.epoch);
        Some(if filled.title == [] then filled.(title := Backfill(text)) else filled)
  }

  /** The gate and the backfill applied to the filled record of an element long enough to be kept. */
  lemma SimpleRecordGate(e: Element, i: nat, stamp: Stamp, rec: Record)
    requires |GetText(e.tag)| >= 20
    requires rec == Badges(MatchedFields(WithTitle(Blank(GeneratedId("RFQ_", i, stamp.epoch), stamp.date), e.titleCandidates),
                                         GetText(e.tag)), GetText(e.tag))
    ensures SimpleRecord(e, i, stamp) == if rec.title == [] && |GetText(e.tag)| <= 50 then None
                                         else Some(if rec.title == [] then rec.(title := Backfill(GetText(e.tag))) else rec)
  {
  }

  /** The body of the element loop: the record filled in step by step, then the gate and the backfill. */
  method ExtractRecord(e: Element, i: nat, stamp: Stamp) returns (r: Option<Record>)
    ensures r == SimpleRecord(e, i, stamp)
  {
    var text := SafeExtractText(Some(e.tag), "");
    if |text| < 20 {
      return None;
    }
    var rec := Blank(GeneratedId("RFQ_", i, stamp.epoch), stamp.date);
    rec := FillTitle(rec, e.titleCandidates);
    rec := FillMatches(rec, text);
    rec := FillBadges(rec, text);
    SimpleRecordGate(e, i, stamp, rec);
    if rec.title != [] || |text| > 50 {
      if rec.title == [] {
        rec := rec.(title := Backfill(text));
      }
      return Some(rec);
    }
    return None;
  }

  /** The records of a page's elements in order, before de-duplication; `clock(i)` is read at element `i`. */
  function Candidates(es: seq<Element>, clock: nat -> Stamp): seq<Record> {
    Collect(es, (e: Element, i: nat) => SimpleRecord(e, i, clock(i)))
  }

  /** Each candidate records the index of its element, and these indices increase along the list. */
  lemma CandidateIdsIncrease(es: seq<Element>, clock: nat -> Stamp)
    ensures forall a :: 0 <= a < |Candidates(es, clock)| ==> 0 <= IndexInId("RFQ_", Candidates(es, clock)[a].rfqId) < |es|
    ensures forall a, b :: 0 <= a < b < |Candidates(es, clock)| ==>
      IndexInId("RFQ_", Candidates(es, clock)[a].rfqId) < IndexInId("RFQ_", Candidates(es, clock)[b].rfqId)
  {
    var f := (e: Element, i: nat) => SimpleRecord(e, i, clock(i));
    var index := (r: Record) => IndexInId("RFQ_", r.rfqId);
    forall i | 0 <= i < |es| && f(es[i], i).Some?
      ensures index(f(es[i], i).value) == i
    {
      assert f(es[i], i) == SimpleRecord(es[i], i, clock(i));
    }
    CollectOrdered(es, f, index);
  }

  /** `title_key = rfq['Title'][:50].lower().strip()` */
  function TitleKey(r: Record): string {
    Strip(Lower(Take(r.title, 50)))
  }

  /** Only keys longer than ten characters are kept at all. */
  predicate LongKey(k: string) {
    |k| > 10
  }

  /** What the page yields: the candidates, the first of each long title key kept. */
  function PageRecords(es: seq<Element>, clock: nat -> Stamp): seq<Record> {
    Dedup(Candidates(es, clock), TitleKey, LongKey)
  }

  /** The element loop of `extract_data_from_page_source`: one record per element that passes the gate. */
  method GatherCandidates(es: seq<Element>, clock: nat -> Stamp) returns (list: seq<Record>)
    ensures list == Candidates(es, clock)
  {
    list := [];
    for i := 0 to |es|
      invariant list == Candidates(es[..i], clock)
    {
      var r := ExtractRecord(es[i], i, clock(i));
      CollectStep(es, (e: Element, i: nat) => SimpleRecord(e, i, clock(i)), i);
      if r.Some? {
        list := list + [r.value];
      }
    }
    assert es[..|es|] == es;
  }

  /** `extract_data_from_page_source`: the element loop, then the `seen_titles` loop. */
  method ExtractDataFromPageSource(es: seq<Element>, clock: nat -> Stamp) returns (unique: seq<Record>)
    ensures unique == PageRecords(es, clock)
  {
    var list := GatherCandidates(es, clock);
    unique := KeepFirst(list, TitleKey, LongKey);
  }

  /**
   * The page keeps, in order, exactly the first candidate of each title key longer than ten
   * characters: kept keys are long and pairwise distinct, and so are the kept identifiers.
   */
  lemma PageRecordsUnique(es: seq<Element>, clock: nat -> Stamp)
    ensures forall a :: 0 <= a < |PageRecords(es, clock)| ==> LongKey(TitleKey(PageRecords(es, clock)[a]))
    ensures forall a, b :: 0 <= a < b < |PageRecords(es, clock)| ==>
      TitleKey(PageRecords(es, clock)[a]) != TitleKey(PageRecords(es, clock)[b])
    ensures forall a, b :: 0 <= a < b < |PageRecords(es, clock)| ==>
      PageRecords(es, clock)[a].rfqId != PageRecords(es, clock)[b].rfqId
    ensures forall a :: 0 <= a < |PageRecords(es, clock)| ==> PageRecords(es, clock)[a] in Candidates(es, clock)
  {
    var cs := Candidates(es, clock);
    CandidateIdsIncrease(es, clock);
    DedupKeysDistinct(cs, TitleKey, LongKey);
    DedupKeepsDistinct(cs, TitleKey, LongKey, (r: Record) => r.rfqId);
    DedupFromInput(cs, TitleKey, LongKey);
  }

  /** A candidate is on the page exactly when it is the first with its title key and that key is long. */
  lemma PageKeepsFirstOfEachKey(es: seq<Element>, clock: nat -> Stamp, i: nat)
    requires i < |Candidates(es, clock)|
    ensures FirstOfKey(Candidates(es, clock), TitleKey, LongKey, i) <==> i in KeptIndices(Candidates(es, clock), TitleKey, LongKey)
  {
    DedupKept(Candidates(es, clock), TitleKey, LongKey);
  }

  /** The parameters every listing request carries, in insertion order. */
  const FixedParams: seq<(string, string)> :=
    [("spm", "a2700.8073608.1998677541.1.82be65aaoUUItC"), ("country", "AE"), ("recently", "Y"), ("tracelog", "newest")]

  /** The query parameters, with `page` added after the others for later pages. */
  function PageParams(pageNum: int): seq<(string, string)> {
    FixedParams + (if pageNum > 1 then [("page", NatToString(pageNum))] else [])
  }

  /** `f"{self.base_url}?{param_string}"` */
  function SimplePageUrl(pageNum: int): string {
    BaseUrl + "?" + Query(PageParams(pageNum))
  }

  /** The URL builder of `scrape_page`: the fixed parameters, `page` added for later pages, then joined. */
  method BuildPageUrl(pageNum: int) returns (url: string)
    ensures url == SimplePageUrl(pageNum)
  {
    var params := FixedParams;
    if pageNum > 1 {
      params := params + [("page", NatToString(pageNum))];
    }
    assert params == PageParams(pageNum);
    url := BaseUrl + "?" + Query(params);
  }

  /**
   * The `page` pair appears exactly for pages after the first: those URLs are the first page's URL
   * followed by `&page=N`, and every other page number gives the first page's URL.
   */
  lemma SimplePageUrlPages(pageNum: int)
    ensures pageNum <= 1 ==> SimplePageUrl(pageNum) == SimplePageUrl(1)
    ensures pageNum > 1 ==> SimplePageUrl(pageNum) == SimplePageUrl(1) + "&page=" + NatToString(pageNum)
  {
    assert PageParams(1) == FixedParams;
    if pageNum > 1 {
      QuerySnoc(FixedParams, ("page", NatToString(pageNum)));
    }
  }

  // ---------------------------------------------------------------------------------------------
  // `scrape_page` and `scrape_multiple_pages`.

  /** The records of one page, with `clock(pageNum, i)` read at its element `i`. */
  function PageOf(pageNum: int, es: seq<Element>, clock: (int, nat) -> Stamp): seq<Record> {
    PageRecords(es, (i: nat) => clock(pageNum, i))
  }

  /** `scrape_page`: the page's URL, then the records of the elements the page shows. */
  method ScrapePage(pageNum: int, es: seq<Element>, clock: (int, nat) -> Stamp) returns (url: string, pageData: seq<Record>)
    ensures url == SimplePageUrl(pageNum)
    ensures pageData == PageOf(pageNum, es, clock)
  {
    url := BuildPageUrl(pageNum);
    pageData := ExtractDataFromPageSource(es, (i: nat) => clock(pageNum, i));
  }

  /** The records of pages 1 to `n`, page after page: what `all_data.extend(page_data)` builds. */
  function AllPages(n: int, site: int -> seq<Element>, clock: (int, nat) -> Stamp): seq<Record>
    decreases n
  {
    if n < 1 then [] else AllPages(n - 1, site, clock) + PageOf(n, site(n), clock)
  }

  /** Every record of one page has a title key longer than ten characters. */
  lemma PageHasLongKeys(pageNum: int, es: seq<Element>, clock: (int, nat) -> Stamp)
    ensures forall a :: 0 <= a < |PageOf(pageNum, es, clock)| ==> LongKey(TitleKey(PageOf(pageNum, es, clock)[a]))
  {
    PageRecordsUnique(es, (i: nat) => clock(pageNum, i));
  }

  /** Every record gathered from any number of pages has a title key longer than ten characters. */
  lemma {:induction false} AllPagesHaveLongKeys(n: int, site: int -> seq<Element>, clock: (int, nat) -> Stamp)
    ensures forall a :: 0 <= a < |AllPages(n, site, clock)| ==> LongKey(TitleKey(AllPages(n, site, clock)[a]))
    decreases n
  {
    if n >= 1 {
      var prev, page := AllPages(n - 1, site, clock), PageOf(n, site(n), clock);
      AllPagesHaveLongKeys(n - 1, site, clock);
      PageHasLongKeys(n, site(n), clock);
      assert AllPages(n, site, clock) == prev + page;
      forall a | 0 <= a < |prev + page|
        ensures LongKey(TitleKey((prev + page)[a]))
      {
        if a >= |prev| {
          assert (prev + page)[a] == page[a - |prev|];
        }
      }
    }
  }

  /** The page loop: `site(page)` stands for what the browser shows on that page. */
  method ScrapePages(numPages: int, site: int -> seq<Element>, clock: (int, nat) -> Stamp) returns (allData: seq<Record>)
    ensures allData == AllPages(numPages, site, clock)
  {
    allData := [];
    var page := 1;
    while page <= numPages
      invariant 1 <= page <= if numPages >= 1 then numPages + 1 else 1
      invariant allData == AllPages(page - 1, site, clock)
    {
      var url, pageData := ScrapePage(page, site(page), clock);
      allData := allData + pageData;
      page := page + 1;
    }
    if numPages < 1 {
      assert AllPages(numPages, site, clock) == [] == AllPages(page - 1, site, clock);
    } else {
      assert page - 1 == numPages;
    }
  }

  /** The scraper object: the records of its last successful run. */
  class SimpleAlibabaRfqScraper {
    var data: seq<Record>

    constructor()
      ensures data == []
    {
      data := [];
    }

    /** Pages 1 to `numPages` in order; without a driver nothing is scraped and `data` is left alone. */
    method ScrapeMultiplePages(numPages: int, driverReady: bool, site: int -> seq<Element>,
                               clock: (int, nat) -> Stamp) returns (ok: bool)
      modifies this
      ensures ok == driverReady
      ensures ok ==> data == AllPages(numPages, site, clock)
      ensures !ok ==> data == old(data)
    {
      if !driverReady {
        return false;
      }
      data := ScrapePages(numPages, site, clock);
      return true;
    }
  }
}
