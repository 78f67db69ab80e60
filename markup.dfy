/**
 * The parts of a parsed HTML element the scrapers read: its tag name, its text nodes in document
 * order and its attributes. Which descendant a CSS selector or a `find` call picks is decided by
 * the HTML library and arrives here as an input.
 */
module Markup {
  import opened Wrappers
  import opened Text
  import opened Patterns

  datatype Tag = Tag(name: string, strings: seq<string>, attrs: map<string, string>)

  /**
   * `get_text(strip=True)`: every text node stripped, the empty ones dropped, the rest joined
   * without a separator. The result therefore has no white space at either end.
   */
  function StrippedText(strings: seq<string>): (r: string)
    ensures r == [] || (!IsSpace(r[0]) && !IsSpace(r[|r| - 1]))
  {
    if strings == [] then "" else StrippedText(strings[..|strings| - 1]) + Strip(strings[|strings| - 1])
  }

  /** `get_text(strip=True)` of text nodes that are all white space is empty. */
  lemma {:induction false} StrippedTextOfBlanks(strings: seq<string>)
    requires forall k :: 0 <= k < |strings| ==> Strip(strings[k]) == []
    ensures StrippedText(strings) == []
  {
    if strings != [] {
      var init := strings[..|strings| - 1];
      assert forall k :: 0 <= k < |init| ==> init[k] == strings[k];
      StrippedTextOfBlanks(init);
      assert Strip(strings[|strings| - 1]) == [];
    }
  }

  /** A text node with something besides white space makes `get_text(strip=True)` non-empty. */
  lemma {:induction false} StrippedTextKeepsWords(strings: seq<string>, k: nat)
    requires k < |strings| && Strip(strings[k]) != []
    ensures StrippedText(strings) != []
  {
    var init, last := strings[..|strings| - 1], strings[|strings| - 1];
    if k < |init| {
      assert init[k] == strings[k];
      StrippedTextKeepsWords(init, k);
    } else {
      assert Strip(last) != [];
    }
    assert StrippedText(strings) == StrippedText(init) + Strip(last);
  }

  /** `get_text(strip=True)` is empty exactly when every text node is white space only. */
  lemma StrippedTextEmpty(strings: seq<string>)
    ensures StrippedText(strings) == [] <==> forall k :: 0 <= k < |strings| ==> Strip(strings[k]) == []
  {
    if forall k :: 0 <= k < |strings| ==> Strip(strings[k]) == [] {
      StrippedTextOfBlanks(strings);
    } else {
      var k :| 0 <= k < |strings| && Strip(strings[k]) != [];
      StrippedTextKeepsWords(strings, k);
    }
  }

  function GetText(t: Tag): string {
    StrippedText(t.strings)
  }

  /** `get_text()` with no stripping: the text nodes joined as they are. */
  function AllText(t: Tag): string {
    Concat(t.strings)
  }

  /** `tag.get(name)`: the attribute's value, `None` when the tag does not carry it. */
  function Attr(t: Tag, name: string): (r: Option<string>)
    ensures r.Some? <==> name in t.attrs
    ensures r.Some? ==> r.value == t.attrs[name]
  {
    if name in t.attrs then Some(t.attrs[name]) else None
  }

  /** `find(text=pattern)`: the first text node in which the pattern matches somewhere. */
  function FindText(m: Anchored, strings: seq<string>): (r: Option<string>)
    ensures r.None? <==> forall k :: 0 <= k < |strings| ==> Search(m, strings[k]).None?
    ensures r.Some? ==> exists k :: 0 <= k < |strings| && strings[k] == r.value && Search(m, r.value).Some?
                                    && forall j :: 0 <= j < k ==> Search(m, strings[j]).None?
  {
    if strings == [] then None
    else if Search(m, strings[0]).Some? then Some(strings[0])
    else
      var r := FindText(m, strings[1..]);
      assert forall k :: 1 <= k < |strings| ==> strings[1..][k - 1] == strings[k];
      r
  }

  /** Stripping what `get_text(strip=True)` returns changes nothing. */
  lemma StrippedTextIsStripped(strings: seq<string>)
    ensures Strip(StrippedText(strings)) == StrippedText(strings)
  {
    StripUnchanged(StrippedText(strings));
  }
}
