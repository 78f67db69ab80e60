# Alibaba RFQ scrapers: a verified model of the extraction logic

The repository holds three scrapers for Alibaba's "request for quotation" (RFQ) listings:

- `SimpleAlibabaRFQScraper` (simple_alibaba_scraper.py) parses the page source with BeautifulSoup;
- `AlternativeAlibabaScraper` (alternative_scraper.py) reads Selenium elements directly;
- `AlibabaRFQScraper` (alibaba_rfq_scraper.py) parses the outer HTML of each listing element.

Each turns one listing element into a record of sixteen fields:

- the RFQ identifier, title, buyer name and image, inquiry time;
- quotes left, country, quantity;
- five Yes/No badges;
- inquiry URL, inquiry date and scraping date.

All three do this by trying a fixed list of strategies and regular expressions in order, the first hit winning, and then truncating the results. Each then keeps some of the records and drops duplicates. This project models that text-level core in Dafny and proves what the code promises about it.

The model is organised as follows:

- `Text`: Python string operations.
  - `strip`, `lower` and `upper`, slicing, `in`, `split('\n')`.
  - Decimal rendering of a number.
- `Sequences`: generic list passes.
  - The first element that satisfies a test, and the first that produces a value, each with a loop proved against its function.
  - The "keep the first of each key" de-duplication loop, with its properties.
  - The "append what each element yields" loop.
- `Patterns`: the regular expressions the scrapers use, written as scanners.
  - A scanner tried at one position plays the part of `re.match`.
  - `Search` takes the leftmost position that matches, which is `re.search`.
- `Markup`: what a parsed tag offers, and `get_text(strip=True)`, `get_text()`, `get(attr)` and `find(text=pattern)` on top of it.
  - A tag is its name, its text nodes in document order and its attributes.
- `Records`: the record, its defaults, the generated identifiers `RFQ_<i+1>_<epoch>` and `ALT_RFQ_<i+1>_<epoch>`, and the title backfill.
- `Site`: the page URLs and the completion of relative links.
- `SimpleScraper`, `AlternativeScraper` and `RfqScraper`: one module per scraper, in the order of its source.
  - Each field is a function that states the field's meaning.
  - The imperative loops that fill the record are methods proved equal to those functions.
  - `SimpleScraper.SimpleAlibabaRfqScraper` and `RfqScraper.AlibabaRfqScraper` are classes whose `data` field `ScrapeMultiplePages` replaces.

What a CSS selector or a `find` call picks out of the document is the HTML library's business. It enters as input:

- `SimpleScraper.Element`: a listing tag and its seven title candidates.
- `AlternativeScraper.WebElement`: an element's text, its links and its child texts.
- `RfqScraper.RfqElement`: the element's outer HTML, its parsed text nodes and the tag each `soup.find` returns.

Clock readings are parameters indexed by the element's position.

Behaviour the code has and the model keeps:

- In the alternative scraper, the country codes are matched ignoring case. The word "in" in ordinary text therefore reports India, and "it" reports Italy.
  - A country name is upper-cased before the table look-up, so "China" is reported as `CHINA`, while "cn" becomes `China` (`CodeIsLookedUp`, `NameIsUpperCased`). No name of the table is itself a key.
- The RFQ scraper reads Quotes_Left as the first number in the text node that says "`<n>` quotes left", and that number need not be `<n>` (`QuotesTakeFirstNumber`).
- Titles whose de-duplication key is ten characters or shorter are dropped by the simple scraper, not kept.

## Model

| member | source | states |
|---|---|---|
| Text.Lower | alibaba_rfq_scraper.py:185 | `lower()` keeps the length and lower-cases each character |
| Text.Upper | alternative_scraper.py:176 | `upper()` keeps the length and upper-cases each character |
| Text.UpperIsUpperCase | alternative_scraper.py:176 | the upper-cased text has no lower-case letter, and upper-casing such a text changes nothing |
| Text.UpperIgnoresCase | alternative_scraper.py:174-176 | two texts that agree ignoring case upper-case to the same text, so a case-insensitive match upper-cases to one value |
| Text.Take | simple_alibaba_scraper.py:126 | `s[:n]` is a prefix of at most `n` characters, the whole string when it is short and exactly `n` characters otherwise |
| Text.Strip | alibaba_rfq_scraper.py:131 | `strip()` returns a piece of the string with no white space at either end, and is empty only for an all-blank string |
| Text.StripRemovesOnlyEnds | alibaba_rfq_scraper.py:131 | `strip()` removes only white space at the ends: the result is the slice that starts after the leading white space, and only white space follows it |
| Text.StripUnchanged | alibaba_rfq_scraper.py:131 | a string without white space at its ends is its own stripped form |
| Text.StripIdempotent | alibaba_rfq_scraper.py:131 | stripping twice is stripping once |
| Text.StripKeepsHead | simple_alibaba_scraper.py:167 | a match that begins with a non-space character keeps that character first when stripped |
| Text.NewlinesToSpaces | simple_alibaba_scraper.py:200 | `replace('\n', ' ')` turns every newline into a space, so none is left, and changes no other character |
| Text.SplitLines | alternative_scraper.py:123 | `split('\n')` gives at least one line and no line holds a newline |
| Text.SplitLinesJoin | alternative_scraper.py:123 | joining the lines of `split('\n')` with newlines gives the text back |
| Text.NatToString | simple_alibaba_scraper.py:96 | the decimal rendering of a number is a digit string whose value is that number, with no leading zero unless it is the single digit `0` |
| Text.NatToStringInjective | simple_alibaba_scraper.py:96 | different numbers render differently |
| Sequences.Find | simple_alibaba_scraper.py:122-136 | the first position whose element passes the test; every earlier one fails it, and `None` means none passes |
| Sequences.FindAt | simple_alibaba_scraper.py:122-136 | a passing element with only failing ones before it is the one found |
| Sequences.FindFirst | simple_alibaba_scraper.py:122-136 | the loop that breaks at the first passing element returns the position `Find` names |
| Sequences.FirstSome | alibaba_rfq_scraper.py:128-132 | the first element that produces a value, with that value; every earlier one produces nothing, and `None` means none does |
| Sequences.FirstSomeOfTwo | alibaba_rfq_scraper.py:173-179 | with two patterns the second is consulted only when the first finds nothing |
| Sequences.FirstSomeOf | alibaba_rfq_scraper.py:128-132 | the `for pattern ...: break` loop returns what `FirstSome` names |
| Sequences.Dedup | simple_alibaba_scraper.py:210-217 | the de-duplicated list is no longer than its input |
| Sequences.FirstOfKeyInPrefix | simple_alibaba_scraper.py:210-217 | whether an element is the first of its key depends only on the elements before it |
| Sequences.DedupStep | simple_alibaba_scraper.py:213-217 | one loop step appends the element exactly when its key is eligible and not yet in `seen`, and then adds the key to `seen` |
| Sequences.DedupKept | simple_alibaba_scraper.py:210-217 | the kept elements are the input's elements at increasing positions, which are exactly the positions holding the first eligible element of their key |
| Sequences.KeepFirst | alibaba_rfq_scraper.py:278-287 | the `seen` set loop returns the list `Dedup` describes |
| Sequences.DedupKeysDistinct | simple_alibaba_scraper.py:215 | every kept key is eligible and no key is kept twice |
| Sequences.DedupOfDistinct | simple_alibaba_scraper.py:210-217 | a list whose keys are eligible and distinct comes through unchanged |
| Sequences.DedupIdempotent | simple_alibaba_scraper.py:210-217 | de-duplicating twice is de-duplicating once |
| Sequences.DedupKeepsDistinct | simple_alibaba_scraper.py:210-217 | any property that tells the input's elements apart tells the kept ones apart |
| Sequences.EarliestOfKey | alibaba_rfq_scraper.py:280-285 | each eligible element has an element with the same key, at or before it, that is the first of that key |
| Sequences.DedupCovers | alibaba_rfq_scraper.py:280-285 | every eligible key of the input is the key of some kept element |
| Sequences.DedupFromInput | simple_alibaba_scraper.py:210-217 | every kept element comes from the input |
| Sequences.Collect | alibaba_rfq_scraper.py:293-300 | the loop that appends what each element yields gives no more results than elements |
| Sequences.CollectStep | alibaba_rfq_scraper.py:294-300 | one loop step appends the element's result exactly when it yields one |
| Sequences.CollectAll | alibaba_rfq_scraper.py:299-300 | when every result an element yields meets a condition, every collected result meets it |
| Sequences.CollectOrdered | simple_alibaba_scraper.py:85-96 | results that record their element's position come out with positions in range and strictly increasing |
| Patterns.SearchFrom | simple_alibaba_scraper.py:146 | `re.search` from a position: the match found is at the leftmost position where the pattern matches, and no earlier position matches |
| Patterns.Search | simple_alibaba_scraper.py:146 | `re.search` finds something exactly when the pattern matches at some position |
| Patterns.SearchGroup | simple_alibaba_scraper.py:148 | the text found is the group matched at one position of the text |
| Patterns.SearchLeftmost | simple_alibaba_scraper.py:146-148 | the text found is the group of the leftmost position where the pattern matches: no earlier position matches |
| Patterns.WordAt | alternative_scraper.py:126 | the alternation of `hour`, `day` and `minute`, ignoring case: the first alternative present, and `None` only when none is |
| Patterns.PluralEnd | simple_alibaba_scraper.py:172 | an optional `s` is consumed exactly when one follows |
| Patterns.QuotesLeftAt | simple_alibaba_scraper.py:184 | a match of `(\d+)\s*quotes?\s*left` starts where it is tried, and its group is the whole run of digits there |
| Patterns.QuotesLeft | simple_alibaba_scraper.py:184-186 | Quotes_Left is found exactly when the phrase occurs somewhere in the text, and it is then a digit string |
| Patterns.QuotesLeftIsLeftmost | simple_alibaba_scraper.py:184-186 | the number found is the whole digit run at the leftmost place where the phrase occurs |
| Patterns.RfqIdAt | alibaba_rfq_scraper.py:83 | `rfq_id[=:](\d+)` at a position: the text there is `rfq_id` then `=` or `:`, and the group is the whole digit run that follows |
| Patterns.RfqId | alibaba_rfq_scraper.py:83-85 | the identifier is the digit run after the first `rfq_id=` or `rfq_id:` followed by a digit; none is found only when no position matches |
| Patterns.RfqIdOccurs | alibaba_rfq_scraper.py:83-85 | the identifier found is a piece of the href |
| Patterns.TimeAgoAt | alternative_scraper.py:196 | a match of the relative-time pattern (a number, a time unit, then `ago` or `before`) starts with a digit where it is tried |
| Patterns.AlternativesAt | simple_alibaba_scraper.py:173 | a match of the alternation of `yesterday`, `today` and `last week` lies inside the text where it is tried |
| Patterns.DigitsUpTo | simple_alibaba_scraper.py:174 | `\d{1,n}` reads at most `n` digits and only digits |
| Patterns.DateAt | simple_alibaba_scraper.py:174 | a match of the `d/m/y` date pattern is non-empty and lies inside the text |
| Patterns.UnitQuantityAt | simple_alibaba_scraper.py:159 | a match of the unit-quantity pattern (a number, then a unit such as `pieces`) starts with a digit where it is tried |
| Patterns.FramedAt | simple_alibaba_scraper.py:140-142 | the group of `from[:\s]*([^,\n]+)` follows the keyword and holds no comma or newline |
| Patterns.BoundedWordAt | simple_alibaba_scraper.py:152 | a word alternation between `\b` anchors, tried at a position: the first alternative present there that ends on a word boundary, and `None` only when none does |
| Patterns.KeywordQuantityAt | simple_alibaba_scraper.py:160-161 | a match of `quantity[:\s]*(\d+[\s,]*\d*\s*\w+)` begins with the keyword and runs past it |
| Patterns.DigitRunAt | alibaba_rfq_scraper.py:146 | a match of `(\d+)` is a non-empty run of digits where it is tried |
| Patterns.FirstSearch | simple_alibaba_scraper.py:145-149 | the first pattern of the list found in the text gives the result; `None` only when none is found |
| Patterns.FirstHit | simple_alibaba_scraper.py:145-149 | the `for pattern ...: break` loop returns what `FirstSearch` names |
| Markup.StrippedText | simple_alibaba_scraper.py:53 | `get_text(strip=True)` has no white space at either end |
| Markup.StrippedTextOfBlanks | simple_alibaba_scraper.py:53 | text nodes that are all white space give an empty text |
| Markup.StrippedTextKeepsWords | simple_alibaba_scraper.py:53 | one node with something besides white space gives a non-empty text |
| Markup.StrippedTextEmpty | simple_alibaba_scraper.py:53 | the text is empty exactly when every node is white space only |
| Markup.StrippedTextIsStripped | alibaba_rfq_scraper.py:94 | stripping `get_text(strip=True)` again changes nothing |
| Markup.Attr | alibaba_rfq_scraper.py:81-82 | `tag.get(name)` is the attribute's value when the tag carries it, `None` otherwise |
| Markup.FindText | alibaba_rfq_scraper.py:129 | `find(text=pattern)` returns the first text node in which the pattern is found, and `None` only when it is found in none |
| Records.FlagOf | alibaba_rfq_scraper.py:187-188 | a badge is `Yes` exactly when its test holds |
| Records.GeneratedIdRoundTrip | alternative_scraper.py:90 | the element index can be read back from a generated identifier, whatever the clock read |
| Records.GeneratedIdsDistinct | alternative_scraper.py:90 | identifiers generated for different element indices differ, even under different clock readings |
| Records.Backfill | simple_alibaba_scraper.py:199-200 | the backfilled title is a slice of `text[:100]` with every newline read as a space and only white space around it in `text[:100]`; it holds no newline, has no white space at its ends, and is non-empty when the text starts with a non-space character |
| Records.BackfillSlice | simple_alibaba_scraper.py:199-200 | `text[:100].replace('\n', ' ').strip()` is such a slice, starting after the leading white space |
| Site.PageUrl | alibaba_rfq_scraper.py:234-237 | the page URL starts with the base URL and fixed parameters, and is exactly those when the page number is at most 1 |
| Site.RequestedPage | alibaba_rfq_scraper.py:234-237 | a page number is read back only from a URL of this shape |
| Site.PageUrlRoundTrip | alibaba_rfq_scraper.py:234-237 | the page number can be read back from the URL built for it, page 1 standing for every number up to 1 |
| Site.QuerySnoc | simple_alibaba_scraper.py:237-240 | adding the `page` pair to the parameters appends `&page=N` to the joined query |
| Site.Absolute | alibaba_rfq_scraper.py:86 | an href that starts with `http` is kept as it is; any other is prefixed with the site's origin |
| SimpleScraper.SafeExtractText | simple_alibaba_scraper.py:50-55 | the default without an element; otherwise a stripped text, empty exactly when every text node is blank |
| SimpleScraper.SafeExtractAttribute | simple_alibaba_scraper.py:57-62 | the attribute's value when the element carries it, otherwise the default |
| SimpleScraper.LinkUrl | simple_alibaba_scraper.py:129-135 | an `http` href is copied, a `/` href is completed, any other leaves the URL empty |
| SimpleScraper.LinkUrlIsAbsolute | simple_alibaba_scraper.py:131-135 | for the hrefs it accepts, the title link's URL agrees with the RFQ scraper's completion |
| SimpleScraper.TitleAndUrl | simple_alibaba_scraper.py:115-136 | the title comes from the first candidate with more than 5 characters of text, cut to 200, and is empty only when no candidate qualifies. The URL is that candidate's completed `href` when it is a link and empty otherwise, so there is no URL without a title |
| SimpleScraper.FillTitle | simple_alibaba_scraper.py:122-136 | the candidate loop produces the record `TitleAndUrl` describes |
| SimpleScraper.CountryAt | simple_alibaba_scraper.py:152 | a country match lies between two word boundaries |
| SimpleScraper.BuyerName | simple_alibaba_scraper.py:139-149 | the buyer is the first of the from/buyer/company patterns found, stripped and cut to 100 characters |
| SimpleScraper.Quantity | simple_alibaba_scraper.py:158-168 | the quantity is the first quantity pattern found, stripped and cut to 50 characters |
| SimpleScraper.InquiryTime | simple_alibaba_scraper.py:171-181 | the time is the first time pattern found, stripped |
| SimpleScraper.MatchedFields | simple_alibaba_scraper.py:139-186 | buyer, country, quantity, time and quotes each take their pattern's result when it is found and keep their old value otherwise; nothing else changes; buyer has at most 100 characters, quantity at most 50, quotes are digits |
| SimpleScraper.FillMatches | simple_alibaba_scraper.py:139-186 | the pattern loops produce the record `MatchedFields` describes |
| SimpleScraper.Badges | simple_alibaba_scraper.py:188-194 | Email_Confirmed and Experienced become `Yes` exactly when the lower-cased text holds one of their words; nothing else changes |
| SimpleScraper.FillBadges | simple_alibaba_scraper.py:188-194 | the badge tests produce the record `Badges` describes |
| SimpleScraper.SimpleRecord | simple_alibaba_scraper.py:85-202 | an element yields a record exactly when its text has at least 20 characters and it has a title or more than 50 characters. The title is the found one, or else the backfill, and the URL the found one. Buyer, country, quantity, time and quotes are each their pattern's result or `''`. The badges follow their words, the other badges stay `No`, and the identifier records the index |
| SimpleScraper.ExtractRecord | simple_alibaba_scraper.py:85-203 | the loop body produces what `SimpleRecord` describes |
| SimpleScraper.CandidateIdsIncrease | simple_alibaba_scraper.py:85-96 | the candidates' identifiers record element indices in range and in increasing order |
| SimpleScraper.GatherCandidates | simple_alibaba_scraper.py:85-207 | the element loop produces the candidate list |
| SimpleScraper.ExtractDataFromPageSource | simple_alibaba_scraper.py:64-220 | the page yields the candidates with the first record of each long title key kept |
| SimpleScraper.PageRecordsUnique | simple_alibaba_scraper.py:210-217 | every kept title key is longer than 10 characters, kept keys and identifiers are pairwise distinct, and every kept record is a candidate |
| SimpleScraper.PageKeepsFirstOfEachKey | simple_alibaba_scraper.py:210-217 | a candidate is kept exactly when its key is long and no earlier candidate has that key |
| SimpleScraper.BuildPageUrl | simple_alibaba_scraper.py:230-241 | the URL builder returns the base URL, `?` and the joined parameters, `page` among them only for later pages |
| SimpleScraper.SimplePageUrlPages | simple_alibaba_scraper.py:237-241 | a later page's URL is page 1's followed by `&page=N`; any page number up to 1 gives page 1's URL |
| SimpleScraper.ScrapePage | simple_alibaba_scraper.py:226-256 | a page visits the URL `SimplePageUrl` builds and yields the records `PageRecords` keeps for its elements |
| SimpleScraper.PageHasLongKeys | simple_alibaba_scraper.py:210-217 | every record of a page has a title key longer than 10 characters |
| SimpleScraper.AllPagesHaveLongKeys | simple_alibaba_scraper.py:263-279 | every record gathered from any number of pages has a title key longer than 10 characters |
| SimpleScraper.ScrapePages | simple_alibaba_scraper.py:270-275 | the page loop gathers pages 1 to N in order |
| SimpleScraper.SimpleAlibabaRfqScraper.constructor | simple_alibaba_scraper.py:25-29 | a new scraper holds no data |
| SimpleScraper.SimpleAlibabaRfqScraper.ScrapeMultiplePages | simple_alibaba_scraper.py:263-289 | without a driver nothing changes and the result is false; otherwise `data` becomes the records of pages 1 to N and the result is true |
| AlternativeScraper.LinkTitle | alternative_scraper.py:110-117 | the first link whose href holds `rfq` and whose text is longer than 5 characters gives the title, cut to 200 characters, and the href exactly |
| AlternativeScraper.LineTitle | alternative_scraper.py:122-128 | otherwise the first stripped line longer than 10 characters that does not open with `<n> hour/day/minute`, cut to 200 characters |
| AlternativeScraper.AltTitle | alternative_scraper.py:108-128 | the link title wins, and its URL is set exactly then; otherwise the line title with no URL |
| AlternativeScraper.FindTitle | alternative_scraper.py:108-128 | the two title loops return what `AltTitle` describes |
| AlternativeScraper.UpperCount | alternative_scraper.py:161 | the count of upper-case characters is positive exactly when there is one |
| AlternativeScraper.ExcludedWordsNest | alternative_scraper.py:139-155 | a line that passes the first strategy's exclusion list passes the second's |
| AlternativeScraper.AltBuyer | alternative_scraper.py:130-166 | the buyer is stripped, between 4 and 79 characters, not a number and free of excluded words. It is the first qualifying line when there is one; when no line qualifies it is the first qualifying child text; it is empty only when nothing qualifies |
| AlternativeScraper.FindBuyer | alternative_scraper.py:130-166 | the two strategy loops with their `buyer_found` flag return what `AltBuyer` describes |
| AlternativeScraper.AltCountryAt | alternative_scraper.py:170 | a country match is one of the listed alternatives, ignoring case, between word boundaries |
| AlternativeScraper.NormalizeCountry | alternative_scraper.py:176-187 | a token whose upper-cased form is a key of the table becomes that key's name; any other token comes out upper-cased |
| AlternativeScraper.NormalizeIgnoresCase | alternative_scraper.py:174-187 | the look-up gives the same country whatever the case of the matched text |
| AlternativeScraper.OnlyPairsAreCodes | alternative_scraper.py:178-184 | every key of the table is two characters long |
| AlternativeScraper.CodesAreUpperCase | alternative_scraper.py:178-184 | every key of the table is upper-case |
| AlternativeScraper.ShortNameIsNotCode | alternative_scraper.py:178-184 | `UK` is the only two-character name of the table, and it is not a key |
| AlternativeScraper.CodeIsLookedUp | alternative_scraper.py:176-187 | every code of the table, in any case, becomes its name: `cn`, `Cn` and `CN` all become `China` |
| AlternativeScraper.NameIsUpperCased | alternative_scraper.py:176-187 | every name of the table, in any case, comes out upper-cased: `China` comes out as `CHINA`, not `China` |
| AlternativeScraper.AltCountry | alternative_scraper.py:168-188 | a country is reported exactly when the pattern matches somewhere, and it is then the leftmost match, normalised |
| AlternativeScraper.FoundIsAlternative | alternative_scraper.py:170-176 | the text the country search finds is one of the listed alternatives, up to case |
| AlternativeScraper.AltCountryIsAlternative | alternative_scraper.py:168-188 | a reported country is one of the listed alternatives, normalised |
| AlternativeScraper.StrippedDigitMatch | alternative_scraper.py:191-198 | for a pattern whose matches start with a digit: found exactly when it matches somewhere, and then the leftmost match stripped, which starts with that digit |
| AlternativeScraper.AltQuantityAt | alternative_scraper.py:191 | a quantity match starts with a digit where it is tried |
| AlternativeScraper.AltQuantity | alternative_scraper.py:191-193 | the quantity is found exactly when the pattern matches, and is then the leftmost match stripped, starting with a digit |
| AlternativeScraper.AltTime | alternative_scraper.py:196-198 | the time is found exactly when the pattern matches, and is then the leftmost match stripped, starting with a digit |
| AlternativeScraper.AltFields | alternative_scraper.py:88-203 | the identifier records the index; title, URL and buyer are the strategies' results; quotes, quantity, time and country are each their search's result or `''`; the badges stay `No` |
| AlternativeScraper.AltRecord | alternative_scraper.py:84-210 | an element yields a record exactly when its text has at least 30 characters and it has a title or more than 50 characters; the title is the found one or else the backfill |
| AlternativeScraper.FillFields | alternative_scraper.py:88-203 | the field-by-field updates produce the record `AltFields` describes |
| AlternativeScraper.ExtractElement | alternative_scraper.py:78-215 | the loop body produces what `AltRecord` describes |
| AlternativeScraper.ExtractUsingSeleniumElements | alternative_scraper.py:76-218 | the element loop appends each element's record in order |
| AlternativeScraper.AltIdsDistinct | alternative_scraper.py:90 | the identifiers record element indices in range, increasing, and are pairwise distinct |
| RfqScraper.LinkHref | alibaba_rfq_scraper.py:80-82 | the href is read only from the found link, and is empty when there is none |
| RfqScraper.RfqIdOf | alibaba_rfq_scraper.py:80-85 | RFQ_ID is empty or the digit run after the first matching `rfq_id=`/`rfq_id:`; it is empty exactly when no position matches |
| RfqScraper.UrlOf | alibaba_rfq_scraper.py:81-86 | Inquiry_URL is set exactly when there is an href: the href itself when it starts with `http`, the site's origin followed by it otherwise |
| RfqScraper.IdComesWithUrl | alibaba_rfq_scraper.py:80-86 | a record with an RFQ_ID has an Inquiry_URL that contains it |
| RfqScraper.TitleOf | alibaba_rfq_scraper.py:91-94 | the title is the stripped text of the title link, else of `h3`, else of `h4`, else empty |
| RfqScraper.FindTitle | alibaba_rfq_scraper.py:90-96 | the `or` chain returns what `TitleOf` describes |
| RfqScraper.FromOrByAt | alibaba_rfq_scraper.py:102 | the `From:` or `By:` pattern matches only where one of the two literals occurs |
| RfqScraper.BuyerOf | alibaba_rfq_scraper.py:99-109 | the buyer is the stripped text of the buyer span, else of the buyer div, else the first text node holding `From:` or `By:`, stripped, else empty |
| RfqScraper.FindBuyer | alibaba_rfq_scraper.py:99-111 | the `or` chain returns what `BuyerOf` describes |
| RfqScraper.ImageOf | alibaba_rfq_scraper.py:114-117 | Buyer_Image is the avatar's non-empty `src`, and empty otherwise |
| RfqScraper.FindImage | alibaba_rfq_scraper.py:113-119 | the image step returns what `ImageOf` describes |
| RfqScraper.DayWordAt | alibaba_rfq_scraper.py:125 | a match of the alternation of `yesterday` and `today` lies inside the text and starts with `y` or `t` in either case |
| RfqScraper.TimeAgoNotBlank | alibaba_rfq_scraper.py:124-131 | a node found by the relative-time pattern never strips to nothing |
| RfqScraper.DayWordNotBlank | alibaba_rfq_scraper.py:124-131 | a node found by the day-word pattern never strips to nothing |
| RfqScraper.TimeFound | alibaba_rfq_scraper.py:123-132 | the relative-time node wins over the day-word node; the result is that node stripped, never empty, or empty when neither is found |
| RfqScraper.TimeOf | alibaba_rfq_scraper.py:122-138 | Inquiry_Time is the relative-time node stripped, else the day-word node stripped; only when neither is found does the time span's text take its place |
| RfqScraper.FindTime | alibaba_rfq_scraper.py:122-138 | the pattern loop and the fallback return what `TimeOf` describes |
| RfqScraper.FirstDigitRun | alibaba_rfq_scraper.py:146 | `re.search(r'(\d+)')` finds the first maximal digit run, and nothing only in a text without digits |
| RfqScraper.QuotesOf | alibaba_rfq_scraper.py:143-148 | Quotes_Left is set exactly when a node matches the quotes pattern, and it is that node's first digit run |
| RfqScraper.QuotesTakeFirstNumber | alibaba_rfq_scraper.py:144-148 | a node that opens with a number yields that number, whatever follows |
| RfqScraper.FindQuotes | alibaba_rfq_scraper.py:142-150 | the quotes step returns what `QuotesOf` describes |
| RfqScraper.RfqCountryAt | alibaba_rfq_scraper.py:160 | a match is two capitals or one of the six names, between word boundaries |
| RfqScraper.CountryOf | alibaba_rfq_scraper.py:153-162 | the country is the stripped text of the country span, else of the div, else of the first text node the pattern matches, and `''` exactly when no node matches |
| RfqScraper.FindCountry | alibaba_rfq_scraper.py:152-164 | the country step returns what `CountryOf` describes |
| RfqScraper.UnitAmountAt | alibaba_rfq_scraper.py:169 | a unit-quantity match starts with a digit where it is tried |
| RfqScraper.QuantityWordAt | alibaba_rfq_scraper.py:170 | a `quantity...` match starts with `q` or `Q` where it is tried |
| RfqScraper.StrippedGroup | alibaba_rfq_scraper.py:176-178 | the stripped match of such a pattern is non-empty and keeps its first character |
| RfqScraper.QuantityOf | alibaba_rfq_scraper.py:167-179 | Quantity_Required is set exactly when one of the two patterns finds a node. The unit pattern wins; the value is the stripped match in the node it finds, or else in the node the keyword pattern finds |
| RfqScraper.FindQuantity | alibaba_rfq_scraper.py:166-181 | the pattern loop returns what `QuantityOf` describes |
| RfqScraper.BadgeKeptWithMoreText | alibaba_rfq_scraper.py:185-200 | more text never turns a badge off |
| RfqScraper.InteractiveByActiveOrOnline | alibaba_rfq_scraper.py:199-200 | the Interactive words reduce to `active` or `online` |
| RfqScraper.RfqRecord | alibaba_rfq_scraper.py:53-205 | each field is what its extraction step (`RfqIdOf`, `TitleOf`, `BuyerOf` and the others) finds; RFQ_ID is empty or digits and comes with a URL; the URL is empty or absolute; text fields are stripped; quotes are digits; each badge is `Yes` exactly when the lower-cased text holds one of its words; Inquiry_Date stays empty |
| RfqScraper.ExtractRfqData | alibaba_rfq_scraper.py:53-205 | the step-by-step filling of the record produces what `RfqRecord` describes |
| RfqScraper.PageRecord | alibaba_rfq_scraper.py:297-300 | an element enters `page_data` exactly when its Title or RFQ_ID is non-empty |
| RfqScraper.KeepRecord | alibaba_rfq_scraper.py:297-300 | the gate returns what `PageRecord` describes |
| RfqScraper.UniqueElementsInOrder | alibaba_rfq_scraper.py:278-289 | the kept elements appear in page order, each the first with its 200-character prefix |
| RfqScraper.UniqueElementsDistinct | alibaba_rfq_scraper.py:278-289 | the kept prefixes are pairwise distinct and every prefix on the page is kept once |
| RfqScraper.PageDataPasses | alibaba_rfq_scraper.py:293-308 | every record of a page has a Title or an RFQ_ID, and there are no more records than kept elements |
| RfqScraper.GatherElements | alibaba_rfq_scraper.py:267-275 | the selector loop concatenates the selectors' results in order |
| RfqScraper.ExtractPage | alibaba_rfq_scraper.py:293-308 | the element loop appends each kept element's record in order |
| RfqScraper.ScrapePage | alibaba_rfq_scraper.py:230-308 | a page visits its URL and yields the records of its de-duplicated elements |
| RfqScraper.AllPagesPass | alibaba_rfq_scraper.py:323-335 | every record gathered from any number of pages has a Title or an RFQ_ID |
| RfqScraper.ScrapePages | alibaba_rfq_scraper.py:323-333 | the page loop gathers pages 1 to N in order |
| RfqScraper.AlibabaRfqScraper.constructor | alibaba_rfq_scraper.py:25-30 | a new scraper holds no data |
| RfqScraper.AlibabaRfqScraper.ScrapeMultiplePages | alibaba_rfq_scraper.py:314-337 | without a driver nothing changes and the result is false; otherwise `data` becomes the records of pages 1 to N and the result is true |

## Left out

- Browser work is not modelled: driver setup, navigation, scrolling, `time.sleep`, `WebDriverWait` and `scroll_and_load`. `setup_driver`'s outcome is the `driverReady` parameter.
- The HTML and DOM search is not modelled: `find`, `find_all`, `find_elements` and CSS selectors are inputs to the model. This covers the class-name regexes inside `find`, the selector lists and `outerHTML`.
- `get_text` does not tell comment nodes apart from text nodes.
- `set(all_elements)` in alternative_scraper.py:73 is not modelled. It de-duplicates by Selenium object identity and leaves the order to hashing, so the model takes the elements in the order given.
- Exceptions are not modelled: the per-field `try` blocks, `extract_rfq_data` returning `None`, and the outer `except` paths of `scrape_page` and `scrape_multiple_pages`. The model follows the path on which nothing raises.
- The regular expressions are written as scanners over ASCII character classes. Python's `\d`, `\w`, `isupper`, `isdigit`, `lower`, `upper` and `re.I` also accept other Unicode letters and digits.
- `datetime.now()` and `time.time()` are parameters: a stamp per element position, or a date per page and position.
- CSV writing (`save_to_csv` in every scraper), logging, the printed summaries and `main` are not modelled.
- The alternative scraper's `scrape_single_page` (alternative_scraper.py:224-251) is browser work around `extract_using_selenium_elements`, which is modelled.
- `RfqScraper.BuyerOf`: the branch that reads the parent of a matching text node (alibaba_rfq_scraper.py:106-109) is not modelled. A text node has `get_text` in current BeautifulSoup, so that branch is never taken.
- SimplePageUrlPages: relates each page's URL to page 1's. It does not prove that URL equal, character for character, to `Site.PageUrl`, the RFQ scraper's URL.
