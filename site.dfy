/** The addresses the scrapers request: the RFQ search listing, one URL per page. */
module Site {
  import opened Wrappers
  import opened Text

  const Origin: string := "https://sourcing.alibaba.com"

  const BaseUrl: string := "https://sourcing.alibaba.com/rfq/rfq_search_list.htm"

  /** The fixed query: newest requests for the United Arab Emirates. */
  const Params: string := "?spm=a2700.8073608.1998677541.1.82be65aaoUUItC&country=AE&recently=Y&tracelog=newest"

  /** The listing URL for a page; the first page (and any number below it) carries no page parameter. */
  function PageUrl(pageNum: int): (url: string)
    ensures StartsWith(url, BaseUrl + Params)
    ensures url == BaseUrl + Params <==> pageNum <= 1
  {
    if pageNum > 1 then BaseUrl + Params + "&page=" + NatToString(pageNum) else BaseUrl + Params
  }

  /** The page a listing URL asks for, read back from its query. */
  function RequestedPage(url: string): (r: Option<nat>)
    ensures r.Some? ==> StartsWith(url, BaseUrl + Params)
  {
    var head := BaseUrl + Params + "&page=";
    if url == BaseUrl + Params then Some(1)
    else if StartsWith(url, head) && IsDigitString(url[|head|..]) then Some(DecimalValue(url[|head|..]))
    else None
  }

  /** The URL built for a page asks for that page, so different pages get different URLs. */
  lemma PageUrlRoundTrip(pageNum: int)
    ensures RequestedPage(PageUrl(pageNum)) == Some(if pageNum > 1 then pageNum as nat else 1)
  {
    if pageNum > 1 {
      var head := BaseUrl + Params + "&page=";
      var url := PageUrl(pageNum);
      assert url == head + NatToString(pageNum);
      assert url[|head|..] == NatToString(pageNum);
      assert |url| > |BaseUrl + Params|;
    }
  }

  /** `'&'.join(f"{k}={v}" for k, v in params)`. */
  function Query(params: seq<(string, string)>): string {
    if params == [] then ""
    else if |params| == 1 then params[0].0 + "=" + params[0].1
    else params[0].0 + "=" + params[0].1 + "&" + Query(params[1..])
  }

  /** Adding a pair to a non-empty query appends `&k=v`: the joined form grows at the end only. */
  lemma {:induction false} QuerySnoc(ps: seq<(string, string)>, p: (string, string))
    requires ps != []
    ensures Query(ps + [p]) == Query(ps) + "&" + p.0 + "=" + p.1
    decreases |ps|
  {
    assert (ps + [p])[0] == ps[0];
    if |ps| == 1 {
      assert (ps + [p])[1..] == [p];
    } else {
      assert (ps + [p])[1..] == ps[1..] + [p];
      QuerySnoc(ps[1..], p);
    }
  }

  /** A link made absolute against the site: kept when it starts with `http`, else appended to the origin. */
  function Absolute(href: string): (url: string)
    ensures StartsWith(url, "http") && EndsWith(url, href)
    ensures StartsWith(href, "http") ==> url == href
    ensures !StartsWith(href, "http") ==> url == Origin + href
  {
    if StartsWith(href, "http") then href else Origin + href
  }
}
