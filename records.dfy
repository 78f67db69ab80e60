/** The sixteen-column RFQ record all three scrapers produce, and its defaults. */
module Records {
  import opened Wrappers
  import opened Text

  /** The `'Yes'`/`'No'` badge columns. */
  datatype Flag = No | Yes

  function FlagOf(b: bool): (f: Flag)
    ensures f == Yes <==> b
  {
    if b then Yes else No
  }

  datatype Record = Record(
    rfqId: string,
    title: string,
    buyerName: string,
    buyerImage: string,
    inquiryTime: string,
    quotesLeft: string,
    country: string,
    quantityRequired: string,
    emailConfirmed: Flag,
    experienced: Flag,
    completed: Flag,
    typicalReply: Flag,
    interactive: Flag,
    inquiryUrl: string,
    inquiryDate: string,
    scrapingDate: string)

  /** The dictionary each scraper starts from: empty text columns and every badge `'No'`. */
  function Blank(id: string, scrapingDate: string): Record {
    Record(id, "", "", "", "", "", "", "", No, No, No, No, No, "", "", scrapingDate)
  }

  /** A found value, or the record's default `''`. */
  function OrEmpty(o: Option<string>): (r: string)
    ensures o.Some? ==> r == o.value
    ensures o.None? ==> r == []
  {
    if o.Some? then o.value else ""
  }

  /**
   * One reading of the clock: `int(time.time())`, which the generated identifiers use, and
   * `datetime.now()` formatted as `%Y-%m-%d %H:%M:%S`.
   */
  datatype Stamp = Stamp(epoch: nat, date: string)

  /** `f"{prefix}{i+1}_{int(time.time())}"`: the identifier made up for the element at index `i`. */
  function GeneratedId(prefix: string, i: nat, epoch: nat): string {
    prefix + NatToString(i + 1) + "_" + NatToString(epoch)
  }

  /**
   * The element index a generated identifier records: the digit run between the prefix and the
   * first `_` after it, less one; -1 when the identifier does not have that shape.
   */
  function IndexInId(prefix: string, id: string): int {
    if StartsWith(id, prefix) then
      var rest := id[|prefix|..];
      var field := rest[..IndexOf(rest, '_')];
      if forall k :: 0 <= k < |field| ==> IsDigit(field[k]) then DecimalValue(field) - 1 else -1
    else -1
  }

  /** The index can be read back from a generated identifier, whatever the clock read. */
  lemma GeneratedIdRoundTrip(prefix: string, i: nat, epoch: nat)
    ensures IndexInId(prefix, GeneratedId(prefix, i, epoch)) == i
  {
    var x, y := NatToString(i + 1), NatToString(epoch);
    var id := GeneratedId(prefix, i, epoch);
    assert id[|prefix|..] == x + ['_'] + y;
    IndexOfAfter(x, '_', y);
    assert id[|prefix|..][..|x|] == x;
  }

  /** So elements at different indices get different identifiers. */
  lemma GeneratedIdsDistinct(prefix: string, i: nat, j: nat, t: nat, u: nat)
    requires i != j
    ensures GeneratedId(prefix, i, t) != GeneratedId(prefix, j, u)
  {
    GeneratedIdRoundTrip(prefix, i, t);
    GeneratedIdRoundTrip(prefix, j, u);
  }

  /** `t` is `text[a..a + |t|]` with each new line read as a space, within `text[:100]`, and only white space lies around it there. */
  predicate TitleSliceAt(text: string, a: nat, t: string) {
    a + |t| <= |Take(text, 100)|
    && (forall i :: 0 <= i < |t| ==> t[i] == (if text[a + i] == '\n' then ' ' else text[a + i]))
    && (forall i :: 0 <= i < a ==> IsSpace(text[i]))
    && (forall i :: a + |t| <= i < |Take(text, 100)| ==> IsSpace(text[i]))
  }

  /** `text[:100].replace('\n', ' ').strip()`: the title made up from the text when nothing gave one. */
  function Backfill(text: string): (t: string)
    ensures |t| <= 100 && Strip(t) == t && '\n' !in t
    ensures exists a :: TitleSliceAt(text, a, t)
    ensures text != [] && !IsSpace(text[0]) ==> t != []
  {
    var s := NewlinesToSpaces(Take(text, 100));
    var t := Strip(s);
    StripUnchanged(t);
    assert text != [] && !IsSpace(text[0]) ==> s[0] == text[0] && !IsSpace(s[0]);
    BackfillSlice(text);
    t
  }

  /** The stripped, newline-free prefix is a slice of the text with only white space around it. */
  lemma BackfillSlice(text: string)
    ensures TitleSliceAt(text, LeadingSpaces(NewlinesToSpaces(Take(text, 100))), Strip(NewlinesToSpaces(Take(text, 100))))
  {
    var s := NewlinesToSpaces(Take(text, 100));
    StripRemovesOnlyEnds(s);
    SpacedSlice(text, Take(text, 100), s, LeadingSpaces(s), Strip(s));
  }

  /** A slice `t` of `s`, the prefix `p` of the text with new lines read as spaces, with white space around it. */
  lemma SpacedSlice(text: string, p: string, s: string, a: nat, t: string)
    requires p == Take(text, 100)
    requires |s| == |p| && forall i :: 0 <= i < |p| ==> s[i] == (if p[i] == '\n' then ' ' else p[i])
    requires a + |t| <= |s| && t == s[a..a + |t|]
    requires forall i :: 0 <= i < a ==> IsSpace(s[i])
    requires forall i :: a + |t| <= i < |s| ==> IsSpace(s[i])
    ensures TitleSliceAt(text, a, t)
  {
    forall i | 0 <= i < |p| && IsSpace(s[i])
      ensures IsSpace(text[i])
    {
      assert p[i] == text[i];
    }
    forall i | 0 <= i < |t|
      ensures t[i] == (if text[a + i] == '\n' then ' ' else text[a + i])
    {
      assert t[i] == s[a + i] && p[a + i] == text[a + i];
    }
  }
}
