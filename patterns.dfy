/**
 * The scrapers' simpler regular expressions, each written out as a scanner that decides whether
 * the pattern matches at one position, plus `re.search`'s rule that the leftmost such position
 * wins. Letters are compared after `LowerChar` where the source passes `re.I`.
 */
module Patterns {
  import opened Wrappers
  import opened Text

  /** A half-open range `[start, end)` of a string: the captured group. */
  datatype Span = Span(start: nat, end: nat)

  /** A pattern tried at one position: the captured group of the match that starts there, if any. */
  type Anchored = (string, nat) -> Option<Span>

  /** The successful match of a search: where it starts and what it captured. */
  datatype Match = Match(at: nat, group: Span)

  predicate Hits(m: Anchored, s: string, p: nat) {
    m(s, p).Some? && m(s, p).value.start <= m(s, p).value.end <= |s|
  }

  /** `re.search` from position `p` on: the leftmost position where the pattern matches. */
  function SearchFrom(m: Anchored, s: string, p: nat): (r: Option<Match>)
    ensures r.Some? ==> p <= r.value.at <= |s| && Hits(m, s, r.value.at) && m(s, r.value.at) == Some(r.value.group)
    ensures forall q :: p <= q <= |s| && (r.None? || q < r.value.at) ==> !Hits(m, s, q)
    decreases |s| + 1 - p
  {
    if p > |s| then None
    else if Hits(m, s, p) then Some(Match(p, m(s, p).value))
    else SearchFrom(m, s, p + 1)
  }

  /** The text of the group captured by the leftmost match, if the pattern matches at all. */
  function Search(m: Anchored, s: string): (r: Option<string>)
    ensures r.Some? <==> exists p :: 0 <= p <= |s| && Hits(m, s, p)
  {
    match SearchFrom(m, s, 0)
    case None => None
    case Some(mt) => Some(s[mt.group.start..mt.group.end])
  }

  /** The text `Search` returns is the group of a match at some position. */
  lemma SearchGroup(m: Anchored, s: string)
    requires Search(m, s).Some?
    ensures exists p: nat | p <= |s| :: Hits(m, s, p) && Search(m, s).value == s[m(s, p).value.start..m(s, p).value.end]
  {
    var mt := SearchFrom(m, s, 0).value;
    assert Hits(m, s, mt.at);
  }

  /** The match `Search` reports is at the leftmost position where the pattern matches. */
  lemma SearchLeftmost(m: Anchored, s: string)
    requires Search(m, s).Some?
    ensures exists p: nat | p <= |s| :: Hits(m, s, p) && (forall q :: 0 <= q < p ==> !Hits(m, s, q))
                                        && Search(m, s).value == s[m(s, p).value.start..m(s, p).value.end]
  {
    var mt := SearchFrom(m, s, 0).value;
    assert Hits(m, s, mt.at);
  }

  /** End of the longest run of characters satisfying `c` that starts at `p`. */
  function SkipWhile(s: string, p: nat, c: char -> bool): (e: nat)
    ensures p <= e && (p <= |s| ==> e <= |s|)
    ensures forall i :: p <= i < e ==> i < |s| && c(s[i])
    ensures e < |s| ==> !c(s[e])
    decreases |s| - p
  {
    if p < |s| && c(s[p]) then SkipWhile(s, p + 1, c) else p
  }

  /** The lower-case word `w` occurs at `p`, ignoring case. */
  predicate AtCI(s: string, p: nat, w: string) {
    p + |w| <= |s| && forall i :: 0 <= i < |w| ==> LowerChar(s[p + i]) == w[i]
  }

  /** The text a case-insensitive word matched, lower-cased, is the word. */
  lemma AtCILower(s: string, p: nat, w: string)
    requires AtCI(s, p, w)
    ensures Lower(s[p..p + |w|]) == w
  {
    var g := s[p..p + |w|];
    assert forall i :: 0 <= i < |w| ==> g[i] == s[p + i];
  }

  /** An alternation `(w1|w2|...)` tried at `p`: the end of the first alternative that occurs there. */
  function WordAt(words: seq<string>, s: string, p: nat): (r: Option<nat>)
    ensures r.Some? ==> exists k :: 0 <= k < |words| && AtCI(s, p, words[k]) && r.value == p + |words[k]|
                                    && forall j :: 0 <= j < k ==> !AtCI(s, p, words[j])
    ensures r.None? ==> forall k :: 0 <= k < |words| ==> !AtCI(s, p, words[k])
  {
    if words == [] then None
    else if AtCI(s, p, words[0]) then Some(p + |words[0]|)
    else
      var r := WordAt(words[1..], s, p);
      assert forall k :: 1 <= k < |words| ==> words[1..][k - 1] == words[k];
      r
  }

  /** An optional plural `s?` after position `e`. */
  function PluralEnd(s: string, e: nat): (r: nat)
    ensures r == e || (r == e + 1 && e < |s| && LowerChar(s[e]) == 's')
  {
    if e < |s| && LowerChar(s[e]) == 's' then e + 1 else e
  }

  predicate IsSpaceOrComma(c: char) { IsSpace(c) || c == ',' }

  predicate IsSpaceOrColon(c: char) { IsSpace(c) || c == ':' }

  predicate IsNotCommaOrNewline(c: char) { c != ',' && c != '\n' }

  // ---------------------------------------------------------------------------------------------
  // `(\d+)\s*quotes?\s*left` with re.I: group 1, the number of quotes left.

  function QuotesLeftAt(s: string, p: nat): (r: Option<Span>)
    ensures r.Some? ==> r.value.start == p < r.value.end <= |s| && IsDigitString(s[p..r.value.end])
    ensures r.Some? ==> r.value.end == SkipWhile(s, p, IsDigit)
  {
    if p < |s| && IsDigit(s[p]) then
      var d := SkipWhile(s, p, IsDigit);
      var q := SkipWhile(s, d, IsSpace);
      if AtCI(s, q, "quote") then
        var l := SkipWhile(s, PluralEnd(s, q + 5), IsSpace);
        if AtCI(s, l, "left") then Some(Span(p, d)) else None
      else None
    else None
  }

  /** The number before the first "quote(s) left" phrase, if the text has one. */
  function QuotesLeft(s: string): (r: Option<string>)
    ensures r.Some? <==> exists p :: 0 <= p <= |s| && Hits(QuotesLeftAt, s, p)
    ensures r.Some? ==> IsDigitString(r.value)
  {
    var r := Search(QuotesLeftAt, s);
    if r.Some? then
      SearchGroup(QuotesLeftAt, s);
      r
    else r
  }

  /** The number found is the whole run of digits at the leftmost place where the phrase occurs. */
  lemma QuotesLeftIsLeftmost(s: string)
    ensures QuotesLeft(s).Some? ==> exists p :: 0 <= p <= |s| && Hits(QuotesLeftAt, s, p)
                                               && (forall q :: 0 <= q < p ==> !Hits(QuotesLeftAt, s, q))
                                               && QuotesLeft(s).value == s[p..SkipWhile(s, p, IsDigit)]
  {
    if QuotesLeft(s).Some? {
      SearchLeftmost(QuotesLeftAt, s);
      var p: nat :| p <= |s| && Hits(QuotesLeftAt, s, p) && (forall q :: 0 <= q < p ==> !Hits(QuotesLeftAt, s, q))
                     && QuotesLeft(s).value == s[QuotesLeftAt(s, p).value.start..QuotesLeftAt(s, p).value.end];
    }
  }

  // ---------------------------------------------------------------------------------------------
  // `rfq_id[=:](\d+)`, case-sensitive: group 1, the identifier's digits.

  function RfqIdAt(s: string, p: nat): (r: Option<Span>)
    ensures r.Some? ==> r.value.start == p + 7 < r.value.end <= |s| && IsDigitString(s[r.value.start..r.value.end])
    ensures r.Some? ==> s[p..p + 6] == "rfq_id" && (s[p + 6] == '=' || s[p + 6] == ':')
    ensures r.Some? ==> r.value.end == |s| || !IsDigit(s[r.value.end])
  {
    if p + 7 < |s| && s[p..p + 6] == "rfq_id" && (s[p + 6] == '=' || s[p + 6] == ':') && IsDigit(s[p + 7]) then
      Some(Span(p + 7, SkipWhile(s, p + 7, IsDigit)))
    else None
  }

  /** The digits after the first `rfq_id=` or `rfq_id:` that is followed by a digit. */
  function RfqId(s: string): (r: Option<string>)
    ensures r.Some? ==> IsDigitString(r.value)
    ensures r.Some? ==> exists p: nat | p <= |s| ::
      RfqIdAt(s, p).Some? && r.value == s[p + 7..RfqIdAt(s, p).value.end]
      && forall q :: 0 <= q < p ==> RfqIdAt(s, q).None?
    ensures r.None? ==> forall p: nat :: p <= |s| ==> RfqIdAt(s, p).None?
  {
    assert forall p: nat :: p <= |s| && RfqIdAt(s, p).Some? ==> Hits(RfqIdAt, s, p);
    match SearchFrom(RfqIdAt, s, 0)
    case None => None
    case Some(mt) => Some(s[mt.group.start..mt.group.end])
  }

  /** The number found is a piece of the text it was found in. */
  lemma RfqIdOccurs(s: string)
    ensures RfqId(s).Some? ==> Contains(s, RfqId(s).value)
  {
    if RfqId(s).Some? {
      var p: nat :| p <= |s| && RfqIdAt(s, p).Some? && RfqId(s).value == s[p + 7..RfqIdAt(s, p).value.end];
      assert OccursAt(s, RfqId(s).value, p + 7);
    }
  }

  // ---------------------------------------------------------------------------------------------
  // `(\d+)\s*(hours?|days?|minutes?)\s*(ago|before)` with re.I: group 0, a relative time.

  const TimeUnits: seq<string> := ["hour", "day", "minute"]

  function TimeAgoAt(s: string, p: nat): (r: Option<Span>)
    ensures r.Some? ==> r.value.start == p < r.value.end <= |s| && IsDigit(s[p])
  {
    if p < |s| && IsDigit(s[p]) then
      var q := SkipWhile(s, SkipWhile(s, p, IsDigit), IsSpace);
      match WordAt(TimeUnits, s, q)
      case None => None
      case Some(u) =>
        var a := SkipWhile(s, PluralEnd(s, u), IsSpace);
        match WordAt(["ago", "before"], s, a)
        case None => None
        case Some(e) => Some(Span(p, e))
    else None
  }

  /** `re.match(r'^\d+\s*(hour|day|minute)', line, re.I)`: the line opens with a relative time. */
  predicate StartsWithTimeUnit(line: string) {
    |line| > 0 && IsDigit(line[0])
    && WordAt(TimeUnits, line, SkipWhile(line, SkipWhile(line, 0, IsDigit), IsSpace)).Some?
  }

  // ---------------------------------------------------------------------------------------------
  // `(w1|w2|...)` with re.I, such as `(yesterday|today|last week)`: group 0.

  function AlternativesAt(words: seq<string>, s: string, p: nat): (r: Option<Span>)
    ensures r.Some? ==> r.value.start == p <= r.value.end <= |s|
  {
    match WordAt(words, s, p)
    case None => None
    case Some(e) => Some(Span(p, e))
  }

  // ---------------------------------------------------------------------------------------------
  // `(\d{1,2}\/\d{1,2}\/\d{2,4})`: group 0, a numeric date.

  /** How many digits `\d{1,max}` takes greedily at `p`. */
  function DigitsUpTo(s: string, p: nat, max: nat): (n: nat)
    ensures n <= max && (p <= |s| ==> p + n <= |s|)
    ensures forall i :: p <= i < p + n ==> i < |s| && IsDigit(s[i])
  {
    var e := SkipWhile(s, p, IsDigit);
    if e - p <= max then e - p else max
  }

  function DateAt(s: string, p: nat): (r: Option<Span>)
    ensures r.Some? ==> r.value.start == p < r.value.end <= |s|
  {
    var a := DigitsUpTo(s, p, 2);
    if 1 <= a && p + a < |s| && s[p + a] == '/' then
      var q := p + a + 1;
      var b := DigitsUpTo(s, q, 2);
      if 1 <= b && q + b < |s| && s[q + b] == '/' then
        var y := q + b + 1;
        var c := DigitsUpTo(s, y, 4);
        if 2 <= c then Some(Span(p, y + c)) else None
      else None
    else None
  }

  // ---------------------------------------------------------------------------------------------
  // `(\d+[\s,]*\d*)\s*(u1|u2|...)s?` with re.I: group 0, an amount with its unit.

  function UnitQuantityAt(units: seq<string>, s: string, p: nat): (r: Option<Span>)
    ensures r.Some? ==> r.value.start == p < r.value.end <= |s| && IsDigit(s[p])
  {
    if p < |s| && IsDigit(s[p]) then
      var c := SkipWhile(s, SkipWhile(s, p, IsDigit), IsSpaceOrComma);
      var u := SkipWhile(s, SkipWhile(s, c, IsDigit), IsSpace);
      match WordAt(units, s, u)
      case None => None
      case Some(e) => Some(Span(p, PluralEnd(s, e)))
    else None
  }

  // ---------------------------------------------------------------------------------------------
  // `kw[:\s]*([^,\n]+)` with re.I: group 1, the phrase framed by a keyword such as "from".

  /** The last position in `[k, e)` that does not hold a new line. */
  function LastNonNewline(s: string, k: nat, e: nat): (r: Option<nat>)
    requires e <= |s|
    ensures r.Some? ==> k <= r.value < e && s[r.value] != '\n'
    ensures forall j :: k <= j < e && (r.None? || r.value < j) ==> s[j] == '\n'
    decreases e
  {
    if e <= k then None
    else if s[e - 1] != '\n' then Some(e - 1)
    else LastNonNewline(s, k, e - 1)
  }

  /**
   * The greedy `[:\s]*` gives back characters when what follows it is a comma or the end of the
   * text, so the group may start inside the run of colons and blanks.
   */
  function FramedAt(kw: string, s: string, p: nat): (r: Option<Span>)
    ensures r.Some? ==> p + |kw| <= r.value.start < r.value.end <= |s|
    ensures r.Some? ==> forall i :: r.value.start <= i < r.value.end ==> IsNotCommaOrNewline(s[i])
  {
    if AtCI(s, p, kw) then
      var k := p + |kw|;
      var e := SkipWhile(s, k, IsSpaceOrColon);
      var g := if e < |s| && s[e] != ',' then Some(e) else LastNonNewline(s, k, e);
      match g
      case None => None
      case Some(j) => Some(Span(j, SkipWhile(s, j, IsNotCommaOrNewline)))
    else None
  }

  // ---------------------------------------------------------------------------------------------
  // `\b(w1|w2|...)\b` with re.I.

  predicate IsWordAt(s: string, i: int) { 0 <= i < |s| && IsWordChar(s[i]) }

  /** `\b` at position `i`: a word character on exactly one side. */
  predicate Boundary(s: string, i: int) { IsWordAt(s, i - 1) != IsWordAt(s, i) }

  /** The lower-case word `w` occurs in `s`, ignoring case, with a word boundary on each side. */
  predicate HasWord(s: string, w: string) {
    exists p: nat | p <= |s| :: AtCI(s, p, w) && Boundary(s, p) && Boundary(s, p + |w|)
  }

  predicate HasAnyWord(s: string, words: seq<string>) {
    exists w :: w in words && HasWord(s, w)
  }

  // ---------------------------------------------------------------------------------------------
  // `\b(w1|w2|...)\b`, tried at one position: alternatives in order, each needing the closing `\b`.

  /** The word `w` occurs at `p`: ignoring case (then `w` is lower-case) or exactly. */
  predicate LiteralAt(s: string, p: nat, w: string, ignoreCase: bool) {
    if ignoreCase then AtCI(s, p, w) else OccursAt(s, w, p)
  }

  /** The alternative `w` occurs at `p` and a word boundary follows it. */
  predicate BoundedAt(s: string, p: nat, w: string, ignoreCase: bool) {
    LiteralAt(s, p, w, ignoreCase) && Boundary(s, p + |w|)
  }

  /** The end of the first alternative that occurs at `p` and is followed by a word boundary. */
  function BoundedWordAt(words: seq<string>, s: string, p: nat, ignoreCase: bool): (r: Option<nat>)
    ensures r.Some? ==> exists k :: 0 <= k < |words| && BoundedAt(s, p, words[k], ignoreCase) && r.value == p + |words[k]|
                                    && forall j :: 0 <= j < k ==> !BoundedAt(s, p, words[j], ignoreCase)
    ensures r.None? ==> forall k :: 0 <= k < |words| ==> !BoundedAt(s, p, words[k], ignoreCase)
  {
    if words == [] then None
    else if BoundedAt(s, p, words[0], ignoreCase) then Some(p + |words[0]|)
    else
      var r := BoundedWordAt(words[1..], s, p, ignoreCase);
      assert forall k :: 1 <= k < |words| ==> words[1..][k - 1] == words[k];
      if r.Some? then
        var k :| 0 <= k < |words| - 1 && BoundedAt(s, p, words[1..][k], ignoreCase) && r.value == p + |words[1..][k]|
                 && forall j :: 0 <= j < k ==> !BoundedAt(s, p, words[1..][j], ignoreCase);
        assert forall j :: 0 <= j < k + 1 ==> !BoundedAt(s, p, words[j], ignoreCase);
        r
      else r
  }

  /** What a hit of `BoundedWordAt` ignoring case says about the text, for any list of alternatives. */
  lemma BoundedWordHitCI(words: seq<string>, s: string, p: nat, e: nat)
    requires BoundedWordAt(words, s, p, true) == Some(e)
    ensures exists k :: 0 <= k < |words| && AtCI(s, p, words[k]) && e == p + |words[k]| && Boundary(s, e)
  {
  }

  /** `n` upper-case ASCII letters start at `p`. */
  predicate CapsAt(s: string, p: nat, n: nat) {
    p + n <= |s| && forall i :: p <= i < p + n ==> IsUpper(s[i])
  }

  // ---------------------------------------------------------------------------------------------
  // `quantity[:\s]*(\d+[\s,]*\d*\s*\w+)` with re.I (and the same with `need`): group 0.

  /**
   * The greedy reading `\d+ [\s,]* \d* \s* \w+` ends at the end of a word; when no word
   * character follows, backtracking lets the trailing `\w+` take the last digit of the second
   * number or, failing that, the last digit of the first one (which then needs two digits).
   */
  function KeywordQuantityAt(kw: string, s: string, p: nat): (r: Option<Span>)
    ensures r.Some? ==> r.value.start == p && p + |kw| < r.value.end <= |s| && AtCI(s, p, kw)
  {
    if !AtCI(s, p, kw) then None
    else
      var e := SkipWhile(s, p + |kw|, IsSpaceOrColon);
      if !(e < |s| && IsDigit(s[e])) then None
      else
        var d := SkipWhile(s, e, IsDigit);
        var c := SkipWhile(s, d, IsSpaceOrComma);
        var c2 := SkipWhile(s, c, IsDigit);
        var w := SkipWhile(s, c2, IsSpace);
        if w < |s| && IsWordChar(s[w]) then Some(Span(p, SkipWhile(s, w, IsWordChar)))
        else if c < c2 then Some(Span(p, c2))
        else if e + 2 <= d then Some(Span(p, d))
        else None
  }

  // ---------------------------------------------------------------------------------------------
  // `(\d+)`: the first run of digits.

  function DigitRunAt(s: string, p: nat): (r: Option<Span>)
    ensures r.Some? ==> r.value.start == p < r.value.end <= |s| && IsDigitString(s[p..r.value.end])
    ensures r.Some? ==> r.value.end == SkipWhile(s, p, IsDigit)
  {
    if p < |s| && IsDigit(s[p]) then Some(Span(p, SkipWhile(s, p, IsDigit))) else None
  }

  // ---------------------------------------------------------------------------------------------
  // Several patterns tried in turn, the first that matches anywhere winning.

  /** The captured group of the first pattern in `ms` that matches somewhere in `s`. */
  function FirstSearch(ms: seq<Anchored>, s: string): (r: Option<string>)
    ensures r.None? <==> forall k :: 0 <= k < |ms| ==> Search(ms[k], s).None?
    ensures r.Some? ==> exists k :: 0 <= k < |ms| && r == Search(ms[k], s)
                                    && forall j :: 0 <= j < k ==> Search(ms[j], s).None?
  {
    if ms == [] then None
    else if Search(ms[0], s).Some? then Search(ms[0], s)
    else
      var r := FirstSearch(ms[1..], s);
      assert forall k :: 1 <= k < |ms| ==> ms[1..][k - 1] == ms[k];
      r
  }

  /** `for pattern in patterns: match = re.search(pattern, s); if match: ...; break` */
  method FirstHit(ms: seq<Anchored>, s: string) returns (r: Option<string>)
    ensures r == FirstSearch(ms, s)
  {
    var k := 0;
    while k < |ms|
      invariant k <= |ms|
      invariant FirstSearch(ms, s) == FirstSearch(ms[k..], s)
    {
      var found := Search(ms[k], s);
      if found.Some? {
        return found;
      }
      assert ms[k..][1..] == ms[k + 1..];
      k := k + 1;
    }
    return None;
  }
}
