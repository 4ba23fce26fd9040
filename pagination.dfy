/**
 * The pagination resolver of the list endpoints: reading page/perPage/offset/limit
 * from the query string into a window, and the navigation links and echo headers
 * of the response (Link header syntax of section 5 of RFC 5988).
 */
module Pagination {
  import opened Wrappers
  import opened GoInt
  import opened Strconv
  import opened Strings

  /** The parsed URL query (url.Values): every value of every key, in order. */
  type Query = map<string, seq<string>>

  /** r.FormValue(key): the first value of the key, or "" when there is none. */
  function FormValue(q: Query, key: string): string {
    if key in q && |q[key]| > 0 then q[key][0] else ""
  }

  /** The Pagination record: the parameters as read (perPage clamped) and the window [start, end). */
  datatype Pagination = Pagination(page: int, perPage: int, offset: int, limit: int, start: int, end: int)

  /** `Pagination{}`, handed back together with an error. */
  const EMPTY := Pagination(0, 0, 0, 0, 0, 0)

  /** The pair (*Pagination, error) that getPaginationFromRequest returns. */
  datatype Resolved = Resolved(p: Pagination, err: Option<NumError>)

  /** One optional parameter: its default when absent or empty, otherwise Atoi of its text. */
  function Param(text: string, default: int): Parsed {
    if text != "" then Atoi(text) else Parsed(default, None)
  }

  /** A parameter getPaginationFromRequest accepts: absent, or a numeral that fits in an int64. */
  predicate ParamOk(q: Query, key: string) {
    var text := FormValue(q, key);
    text == "" || (Numeral(text) && InInt64(NumeralValue(text)))
  }

  /** The window computed from the (unclamped) perPage, and the clamped perPage. */
  datatype Window = Window(perPage: int, start: int, end: int)

  /**
   * start = perPage*(page-1) and end = perPage*page in int64 arithmetic; end is cut
   * to a non-zero limit it exceeds, and perPage is cut to a positive limit it
   * exceeds. The offset plays no part.
   */
  function ResolveWindow(page: int, perPage: int, limit: int): (w: Window)
    ensures limit > 0 ==> w.perPage <= limit
    ensures limit != 0 ==> w.end <= limit
    ensures w.perPage <= perPage
  {
    var start := Mul(perPage, Sub(page, 1));
    var end := Mul(perPage, page);
    var end := if limit != 0 && end > limit then limit else end;
    var perPage' := if perPage > limit && limit > 0 then limit else perPage;
    Window(perPage', start, end)
  }

  /**
   * getPaginationFromRequest. The four parameters are read in the order page,
   * perPage, offset, limit; the first one present that Atoi rejects ends the
   * parse with that error and the empty record.
   */
  function GetPaginationFromRequest(q: Query): (r: Resolved)
    ensures r.err.Some? ==> r.p == EMPTY
    ensures r.err.None? <==>
      ParamOk(q, "page") && ParamOk(q, "perPage") && ParamOk(q, "offset") && ParamOk(q, "limit")
    ensures r.err.None? ==>
      var page := Param(FormValue(q, "page"), 1).value;
      var perPage := Param(FormValue(q, "perPage"), 10).value;
      var limit := Param(FormValue(q, "limit"), 0).value;
      var w := ResolveWindow(page, perPage, limit);
      && r.p.page == page && r.p.limit == limit
      && r.p.offset == Param(FormValue(q, "offset"), 0).value
      && r.p.perPage == w.perPage && r.p.start == w.start && r.p.end == w.end
  {
    AtoiSucceeds(FormValue(q, "page"));
    AtoiSucceeds(FormValue(q, "perPage"));
    AtoiSucceeds(FormValue(q, "offset"));
    AtoiSucceeds(FormValue(q, "limit"));
    var page := Param(FormValue(q, "page"), 1);
    if page.err.Some? then Resolved(EMPTY, page.err) else
    var perPage := Param(FormValue(q, "perPage"), 10);
    if perPage.err.Some? then Resolved(EMPTY, perPage.err) else
    var offset := Param(FormValue(q, "offset"), 0);
    if offset.err.Some? then Resolved(EMPTY, offset.err) else
    var limit := Param(FormValue(q, "limit"), 0);
    if limit.err.Some? then Resolved(EMPTY, limit.err) else
    var w := ResolveWindow(page.value, perPage.value, limit.value);
    Resolved(Pagination(page.value, w.perPage, offset.value, limit.value, w.start, w.end), None)
  }

  /** The bound that the link arithmetic uses: total unless a non-zero limit is smaller. */
  function EffectiveLimit(limit: int, total: int): (r: int)
    ensures total >= 0 && limit >= 0 ==> r == (if limit > 0 && limit < total then limit else total)
    ensures limit == 0 ==> r == total
  {
    if total < limit || limit == 0 then total else limit
  }

  /**
   * lastPage: limit / perPage, plus one when the remainder is positive. For a
   * non-negative bound and a positive perPage it is the ceiling of bound / perPage.
   */
  function LastPage(limit: int, perPage: int): (last: int)
    requires perPage != 0
    ensures 0 <= limit <= MAX_INT64 && 0 < perPage <= MAX_INT64 ==>
      0 <= last && (last - 1) * perPage < limit <= last * perPage
  {
    QuotientCeiling(limit, perPage);
    var last := Quo(limit, perPage);
    if Rem(limit, perPage) > 0 then Add(last, 1) else last
  }

  /** Go's quotient and remainder of a non-negative bound by a positive perPage, rounded up. */
  lemma QuotientCeiling(limit: int, perPage: int)
    requires perPage != 0
    ensures 0 <= limit <= MAX_INT64 && 0 < perPage <= MAX_INT64 ==>
      var q, m := Quo(limit, perPage), Rem(limit, perPage);
      && 0 <= q && 0 <= m
      && (m > 0 ==> Add(q, 1) == q + 1 && q * perPage < limit <= (q + 1) * perPage)
      && (m == 0 ==> (q - 1) * perPage < limit <= q * perPage)
  {
    if 0 <= limit <= MAX_INT64 && 0 < perPage <= MAX_INT64 {
      var q, m := limit / perPage, limit % perPage;
      DivisionFacts(limit, perPage, q, m);
      assert TruncQuo(limit, perPage) == q;
      assert Quo(limit, perPage) == q;
      assert Rem(limit, perPage) == m;
    }
  }

  lemma DivisionFacts(limit: int, perPage: int, q: int, m: int)
    requires 0 <= limit && 0 < perPage && q == limit / perPage && m == limit % perPage
    ensures limit == q * perPage + m && 0 <= m < perPage && 0 <= q <= limit
    ensures m > 0 ==> q < limit && q * perPage < limit <= (q + 1) * perPage
    ensures m == 0 ==> (q - 1) * perPage < limit <= q * perPage
  {
    var x := q * perPage;
    assert limit == x + m;
    MulAtLeast(q, perPage, 1);
    Distribute(q, perPage);
    if m > 0 {
      MulAtLeast(q, perPage, 2);
    }
  }

  lemma MulAtLeast(a: int, b: int, c: int)
    requires a >= 0 && b >= c
    ensures a * b >= a * c
  {
  }

  lemma Distribute(q: int, p: int)
    ensures (q + 1) * p == q * p + p && (q - 1) * p == q * p - p
  {
  }


  datatype Rel = SelfRel | FirstRel | NextRel | PrevRel | LastRel

  /** A navigation link: its relation and the page its URI points at. */
  datatype Link = Link(rel: Rel, page: int)

  function RelName(rel: Rel): string {
    match rel
    case SelfRel => "self"
    case FirstRel => "first"
    case NextRel => "next"
    case PrevRel => "prev"
    case LastRel => "last"
  }

  /** The order in which the relations are emitted. */
  function RelRank(rel: Rel): nat {
    match rel
    case SelfRel => 0
    case FirstRel => 1
    case NextRel => 2
    case PrevRel => 3
    case LastRel => 4
  }

  predicate HasRel(links: seq<Link>, rel: Rel) {
    exists i :: 0 <= i < |links| && links[i].rel == rel
  }

  /**
   * The links for the current page and the last page: self, first, next when
   * current+1 <= last, prev when current-1 != 0, and last; each relation at most
   * once and always in that order.
   */
  function NavLinks(current: int, last: int): (links: seq<Link>)
    ensures 3 <= |links| <= 5
    ensures links[0] == Link(SelfRel, current) && links[1] == Link(FirstRel, 1)
    ensures links[|links| - 1] == Link(LastRel, last)
    ensures HasRel(links, NextRel) <==> Add(current, 1) <= last
    ensures HasRel(links, PrevRel) <==> Sub(current, 1) != 0
    ensures forall i :: 0 <= i < |links| && links[i].rel == NextRel ==> links[i].page == Add(current, 1)
    ensures forall i :: 0 <= i < |links| && links[i].rel == PrevRel ==> links[i].page == Sub(current, 1)
    ensures forall i, j :: 0 <= i < j < |links| ==> RelRank(links[i].rel) < RelRank(links[j].rel)
  {
    var next := Add(current, 1);
    var prev := Sub(current, 1);
    var links := [Link(SelfRel, current), Link(FirstRel, 1)];
    var links := if next <= last then links + [Link(NextRel, next)] else links;
    var links := if prev != 0 then links + [Link(PrevRel, prev)] else links;
    var links := links + [Link(LastRel, last)];
    assert next <= last ==> links[2].rel == NextRel;
    assert prev != 0 ==> links[|links| - 2].rel == PrevRel;
    links
  }

  /**
   * The current page as calculatePaginationHeaders reads it back from the URL: Atoi
   * of the first `page` value with its error ignored (so 0 for a syntax error, a
   * clamped bound for a range error), or 1 when the key is absent.
   */
  function CurrentPage(q: Query): (page: int)
    ensures InInt64(page)
    ensures "page" !in q || q["page"] == [] ==> page == 1
    ensures "page" in q && q["page"] != [] && Atoi(q["page"][0]).err.Some? ==>
      page == 0 || page == MIN_INT64 || page == MAX_INT64
  {
    if "page" in q && |q["page"]| > 0 then Atoi(q["page"][0]).value else 1
  }

  /** What calculatePaginationHeaders yields: the links and the record after its write to limit, or a division-by-zero panic. */
  datatype Headers = Links(links: seq<Link>, p: Pagination) | DivideByZero

  /**
   * calculatePaginationHeaders. The effective limit is written back into the
   * caller's record; lastPage divides by perPage, which panics when perPage is 0.
   */
  function CalculatePaginationHeaders(q: Query, p: Pagination, total: int): (r: Headers)
    ensures r.DivideByZero? <==> p.perPage == 0
    ensures r.Links? ==> r.p == p.(limit := EffectiveLimit(p.limit, total))
    ensures r.Links? ==> r.links == NavLinks(CurrentPage(q), LastPage(r.p.limit, p.perPage))
  {
    var p := p.(limit := EffectiveLimit(p.limit, total));
    if p.perPage == 0 then DivideByZero
    else Links(NavLinks(CurrentPage(q), LastPage(p.limit, p.perPage)), p)
  }

  datatype Header = Header(name: string, value: string)

  /** One link entry, `<uri>; rel="name"`; `uri` gives the request URL with its page parameter set. */
  function FormatLink(uri: int -> string, link: Link): string {
    "<" + uri(link.page) + ">; rel=\"" + RelName(link.rel) + "\""
  }

  function FormatLinks(uri: int -> string, links: seq<Link>): (entries: seq<string>)
    ensures |entries| == |links|
    ensures forall i :: 0 <= i < |links| ==> entries[i] == FormatLink(uri, links[i])
  {
    seq(|links|, i requires 0 <= i < |links| => FormatLink(uri, links[i]))
  }

  /** The four echo headers, from the record as it was before the link arithmetic. */
  function EchoHeaders(p: Pagination): (hs: seq<Header>)
    ensures |hs| == 4
    ensures hs[0].name == "limit" && hs[1].name == "page" && hs[2].name == "perPage" && hs[3].name == "offset"
  {
    [Header("limit", FormatInt(p.limit)), Header("page", FormatInt(p.page)),
     Header("perPage", FormatInt(p.perPage)), Header("offset", FormatInt(p.offset))]
  }

  /**
   * setPaginationHeaders: the echo headers, then the Link header holding the link
   * entries joined by ","; None when the link arithmetic panics.
   */
  function SetPaginationHeaders(q: Query, p: Pagination, total: int, uri: int -> string): (r: Option<seq<Header>>)
    ensures r.None? <==> p.perPage == 0
    ensures r.Some? ==> |r.value| == 5 && r.value[..4] == EchoHeaders(p) && r.value[4].name == "Link"
    ensures r.Some? ==> r.value[4].value == Join(FormatLinks(uri, CalculatePaginationHeaders(q, p, total).links), ',')
  {
    match CalculatePaginationHeaders(q, p, total)
    case DivideByZero => None
    case Links(links, _) => Some(EchoHeaders(p) + [Header("Link", Join(FormatLinks(uri, links), ','))])
  }

  /** Reading the echo headers back with Atoi gives the record's own values. */
  lemma EchoHeadersRoundTrip(p: Pagination)
    requires InInt64(p.limit) && InInt64(p.page) && InInt64(p.perPage) && InInt64(p.offset)
    ensures var h := EchoHeaders(p);
      && Atoi(h[0].value) == Parsed(p.limit, None) && Atoi(h[1].value) == Parsed(p.page, None)
      && Atoi(h[2].value) == Parsed(p.perPage, None) && Atoi(h[3].value) == Parsed(p.offset, None)
  {
    FormatIntRoundTrip(p.limit);
    FormatIntRoundTrip(p.page);
    FormatIntRoundTrip(p.perPage);
    FormatIntRoundTrip(p.offset);
  }

  /** When no URI contains a comma, splitting the Link header on "," gives back one entry per link, in order. */
  lemma LinkHeaderSplits(q: Query, p: Pagination, total: int, uri: int -> string)
    requires p.perPage != 0
    requires forall page :: Free(uri(page), ',')
    ensures var r := CalculatePaginationHeaders(q, p, total);
      var h := SetPaginationHeaders(q, p, total, uri);
      Split(h.value[4].value, ',') == FormatLinks(uri, r.links)
  {
    var r := CalculatePaginationHeaders(q, p, total);
    var entries := FormatLinks(uri, r.links);
    forall i | 0 <= i < |entries|
      ensures Free(entries[i], ',')
    {
      FormatLinkFree(uri, r.links[i]);
    }
    SplitJoin(entries, ',');
  }

  lemma FormatLinkFree(uri: int -> string, link: Link)
    requires Free(uri(link.page), ',')
    ensures Free(FormatLink(uri, link), ',')
  {
    var name := RelName(link.rel);
    assert Free(name, ',');
    FreeAppend("<", uri(link.page), ',');
    FreeAppend("<" + uri(link.page), ">; rel=\"", ',');
    FreeAppend("<" + uri(link.page) + ">; rel=\"", name, ',');
    FreeAppend("<" + uri(link.page) + ">; rel=\"" + name, "\"", ',');
  }

  /**
   * Without overflow, for page >= 1 and perPage >= 1: start = perPage*(page-1), and
   * end - start is perPage unless a non-zero limit below perPage*page cuts end to the limit.
   */
  lemma WindowWithoutOverflow(page: int, perPage: int, limit: int)
    requires 1 <= page && 1 <= perPage && perPage * page <= MAX_INT64
    ensures var w := ResolveWindow(page, perPage, limit);
      && w.start == perPage * (page - 1)
      && (limit == 0 || perPage * page <= limit ==> w.end - w.start == perPage)
      && (limit != 0 && perPage * page > limit ==> w.end == limit)
      && w.perPage == (if limit > 0 && perPage > limit then limit else perPage)
  {
    assert perPage * (page - 1) == perPage * page - perPage;
    assert perPage * page >= page;
  }

  /**
   * The page the links are computed from agrees with the parsed record, except for a
   * `page` parameter that is present but empty: the record then has page 1 (the
   * default) while the links are computed from page 0.
   */
  lemma CurrentPageAgrees(q: Query)
    requires GetPaginationFromRequest(q).err.None?
    ensures FormValue(q, "page") != "" || "page" !in q ==> CurrentPage(q) == GetPaginationFromRequest(q).p.page
    ensures "page" in q && |q["page"]| > 0 && q["page"][0] == "" ==>
      CurrentPage(q) == 0 && GetPaginationFromRequest(q).p.page == 1
  {
    if "page" in q && |q["page"]| > 0 && q["page"][0] != "" {
      AtoiSucceeds(q["page"][0]);
    }
  }
}
