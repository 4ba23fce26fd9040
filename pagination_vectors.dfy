/**
 * The concrete cases of pkg/api/pagination_test.go, worked out on the model.
 * TestPagination3, 4 and 5 expect start and end shifted by the offset; the code
 * never adds the offset, and the lemmas below state what the code computes.
 */
module PaginationVectors {
  import opened Wrappers
  import opened Strconv
  import opened Pagination

  const Q1: Query := map["limit" := ["100"], "perPage" := ["20"]]
  const Q2: Query := map["limit" := ["10"], "perPage" := ["20"]]
  const Q3: Query := map["perPage" := ["20"], "offset" := ["100"], "page" := ["4"]]
  const Q4: Query := map["perPage" := ["20"], "offset" := ["100"], "page" := ["4"], "limit" := ["1000"]]
  const Q5: Query := map["offset" := ["7"], "page" := ["1"], "limit" := ["100"], "perPage" := ["1"]]
  const Q6: Query := map["perPage" := ["20"], "page" := ["5"], "limit" := ["100"]]
  const Q7: Query := map["perPage" := ["20"], "page" := ["1"], "limit" := ["100"]]

  lemma Numerals()
    ensures Atoi("1") == Parsed(1, None) && Atoi("4") == Parsed(4, None)
    ensures Atoi("5") == Parsed(5, None) && Atoi("7") == Parsed(7, None)
    ensures Atoi("10") == Parsed(10, None) && Atoi("20") == Parsed(20, None)
    ensures Atoi("100") == Parsed(100, None) && Atoi("1000") == Parsed(1000, None)
  {
    assert FormatInt(1) == "1";
    FormatIntRoundTrip(1);
    assert FormatInt(4) == "4";
    FormatIntRoundTrip(4);
    assert FormatInt(5) == "5";
    FormatIntRoundTrip(5);
    assert FormatInt(7) == "7";
    FormatIntRoundTrip(7);
    assert FormatInt(10) == "10";
    FormatIntRoundTrip(10);
    assert FormatInt(20) == "20";
    FormatIntRoundTrip(20);
    assert FormatInt(100) == "100";
    FormatIntRoundTrip(100);
    assert FormatInt(1000) == "1000";
    FormatIntRoundTrip(1000);
  }

  /** A query whose four parameters read as the given values resolves to the window of those values. */
  lemma ResolvesTo(q: Query, page: int, perPage: int, offset: int, limit: int, w: Window)
    requires Param(FormValue(q, "page"), 1) == Parsed(page, None)
    requires Param(FormValue(q, "perPage"), 10) == Parsed(perPage, None)
    requires Param(FormValue(q, "offset"), 0) == Parsed(offset, None)
    requires Param(FormValue(q, "limit"), 0) == Parsed(limit, None)
    requires ResolveWindow(page, perPage, limit) == w
    ensures GetPaginationFromRequest(q) == Resolved(Pagination(page, w.perPage, offset, limit, w.start, w.end), None)
  {
  }

  /** No parameters: page 1, perPage 10, offset 0, limit 0, window [0, 10). */
  lemma NoParameters()
    ensures GetPaginationFromRequest(map[]) == Resolved(Pagination(1, 10, 0, 0, 0, 10), None)
  {
  }

  /** limit=100&perPage=20: window [0, 20). */
  lemma LimitAbovePerPage()
    ensures GetPaginationFromRequest(Q1) == Resolved(Pagination(1, 20, 0, 100, 0, 20), None)
  {
    Numerals();
    assert FormValue(Q1, "page") == "";
    assert FormValue(Q1, "perPage") == "20";
    assert FormValue(Q1, "offset") == "";
    assert FormValue(Q1, "limit") == "100";
    ResolvesTo(Q1, 1, 20, 0, 100, Window(20, 0, 20));
  }

  /** limit=10&perPage=20: perPage clamped to 10, window [0, 10). */
  lemma PerPageClampedToLimit()
    ensures GetPaginationFromRequest(Q2) == Resolved(Pagination(1, 10, 0, 10, 0, 10), None)
  {
    Numerals();
    assert FormValue(Q2, "page") == "";
    assert FormValue(Q2, "perPage") == "20";
    assert FormValue(Q2, "offset") == "";
    assert FormValue(Q2, "limit") == "10";
    ResolvesTo(Q2, 1, 20, 0, 10, Window(10, 0, 10));
  }

  /** perPage=20&offset=100&page=4: window [60, 80) (the test expects [160, 180)). */
  lemma OffsetNotInWindow()
    ensures GetPaginationFromRequest(Q3) == Resolved(Pagination(4, 20, 100, 0, 60, 80), None)
  {
    Numerals();
    assert FormValue(Q3, "page") == "4";
    assert FormValue(Q3, "perPage") == "20";
    assert FormValue(Q3, "offset") == "100";
    assert FormValue(Q3, "limit") == "";
    ResolvesTo(Q3, 4, 20, 100, 0, Window(20, 60, 80));
  }

  /** The same with limit=1000: window [60, 80) (the test expects [160, 180)). */
  lemma OffsetNotInWindowWithLimit()
    ensures GetPaginationFromRequest(Q4) == Resolved(Pagination(4, 20, 100, 1000, 60, 80), None)
  {
    Numerals();
    assert FormValue(Q4, "page") == "4";
    assert FormValue(Q4, "perPage") == "20";
    assert FormValue(Q4, "offset") == "100";
    assert FormValue(Q4, "limit") == "1000";
    ResolvesTo(Q4, 4, 20, 100, 1000, Window(20, 60, 80));
  }

  /** offset=7&page=1&limit=100&perPage=1: window [0, 1) (the test expects [7, 8)). */
  lemma OffsetNotInWindowSinglePage()
    ensures GetPaginationFromRequest(Q5) == Resolved(Pagination(1, 1, 7, 100, 0, 1), None)
  {
    Numerals();
    assert FormValue(Q5, "page") == "1";
    assert FormValue(Q5, "perPage") == "1";
    assert FormValue(Q5, "offset") == "7";
    assert FormValue(Q5, "limit") == "100";
    ResolvesTo(Q5, 1, 1, 7, 100, Window(1, 0, 1));
  }

  /** The links of a record whose current page and lastPage are known. */
  lemma LinksOf(q: Query, p: Pagination, total: int, current: int, last: int)
    requires p.perPage != 0 && CurrentPage(q) == current
    requires LastPage(EffectiveLimit(p.limit, total), p.perPage) == last
    ensures CalculatePaginationHeaders(q, p, total) == Links(NavLinks(current, last), p.(limit := EffectiveLimit(p.limit, total)))
  {
  }

  lemma LastPages()
    ensures LastPage(1000, 20) == 50 && LastPage(100, 20) == 5
  {
  }

  lemma PageFourParsed()
    ensures GetPaginationFromRequest(Q4).p == Pagination(4, 20, 100, 1000, 60, 80)
    ensures CurrentPage(Q4) == 4
  {
    OffsetNotInWindowWithLimit();
    Numerals();
  }

  lemma PageFourNav()
    ensures NavLinks(4, 50) == [Link(SelfRel, 4), Link(FirstRel, 1), Link(NextRel, 5), Link(PrevRel, 3), Link(LastRel, 50)]
  {
  }

  lemma PageFiveNav()
    ensures NavLinks(5, 5) == [Link(SelfRel, 5), Link(FirstRel, 1), Link(PrevRel, 4), Link(LastRel, 5)]
  {
  }

  lemma PageOneNav()
    ensures NavLinks(1, 5) == [Link(SelfRel, 1), Link(FirstRel, 1), Link(NextRel, 2), Link(LastRel, 5)]
  {
  }

  /** page 4 of a limit-1000, 1000-row result with perPage 20: five links, the last one to page 50. */
  lemma FiveLinks()
    ensures CalculatePaginationHeaders(Q4, GetPaginationFromRequest(Q4).p, 1000)
      == Links([Link(SelfRel, 4), Link(FirstRel, 1), Link(NextRel, 5), Link(PrevRel, 3), Link(LastRel, 50)],
               Pagination(4, 20, 100, 1000, 60, 80))
  {
    PageFourParsed();
    LastPages();
    LinksOf(Q4, Pagination(4, 20, 100, 1000, 60, 80), 1000, 4, 50);
    PageFourNav();
  }

  lemma PageFiveParsed()
    ensures GetPaginationFromRequest(Q6) == Resolved(Pagination(5, 20, 0, 100, 80, 100), None)
    ensures CurrentPage(Q6) == 5
  {
    Numerals();
    assert FormValue(Q6, "page") == "5";
    assert FormValue(Q6, "perPage") == "20";
    assert FormValue(Q6, "offset") == "";
    assert FormValue(Q6, "limit") == "100";
    ResolvesTo(Q6, 5, 20, 0, 100, Window(20, 80, 100));
  }

  lemma PageOneParsed()
    ensures GetPaginationFromRequest(Q7) == Resolved(Pagination(1, 20, 0, 100, 0, 20), None)
    ensures CurrentPage(Q7) == 1
  {
    Numerals();
    assert FormValue(Q7, "page") == "1";
    assert FormValue(Q7, "perPage") == "20";
    assert FormValue(Q7, "offset") == "";
    assert FormValue(Q7, "limit") == "100";
    ResolvesTo(Q7, 1, 20, 0, 100, Window(20, 0, 20));
  }

  /** page 5 when limit=100 and perPage=20: no next link. */
  lemma NoNextLink()
    ensures CalculatePaginationHeaders(Q6, GetPaginationFromRequest(Q6).p, 1000)
      == Links([Link(SelfRel, 5), Link(FirstRel, 1), Link(PrevRel, 4), Link(LastRel, 5)],
               Pagination(5, 20, 0, 100, 80, 100))
  {
    PageFiveParsed();
    LastPages();
    LinksOf(Q6, Pagination(5, 20, 0, 100, 80, 100), 1000, 5, 5);
    PageFiveNav();
  }

  /** page 1: no prev link. */
  lemma NoPrevLink()
    ensures CalculatePaginationHeaders(Q7, GetPaginationFromRequest(Q7).p, 1000)
      == Links([Link(SelfRel, 1), Link(FirstRel, 1), Link(NextRel, 2), Link(LastRel, 5)],
               Pagination(1, 20, 0, 100, 0, 20))
  {
    PageOneParsed();
    LastPages();
    LinksOf(Q7, Pagination(1, 20, 0, 100, 0, 20), 1000, 1, 5);
    PageOneNav();
  }
}
