/**
 * The request decisions of the HTTP handlers (pkg/api/api.go): the `orderBy`
 * parameter, the `position` alias, the page check and the slice of the list
 * answers, the status each failure maps to, the cache-hit rule of the point
 * reads and the validation of category ids. The store, the cache, the request
 * body and JSON decoding are oracles passed in; a Go panic is an Aborted reply.
 */
module Api {
  import opened Wrappers
  import opened GoInt
  import opened Strconv
  import opened Strings
  import opened Model
  import opened Pg = Pagination
  import opened MySql

  const STATUS_OK := 200
  const STATUS_CREATED := 201
  const STATUS_BAD_REQUEST := 400
  const STATUS_INTERNAL_SERVER_ERROR := 500

  /** What a handler writes: a JSON value, a cached JSON text, a `{"message": …}` or an `{"error": …}`. */
  datatype Body<T> = Json(value: T) | Cached(raw: string) | Message(text: string) | Error(message: string)

  /** A handler's response, with the headers set before it; Aborted when the handler panics. */
  datatype Reply<T> = Reply(status: int, body: Body<T>, headers: seq<Header>) | Aborted

  function Fail<T>(status: int, message: string): Reply<T> {
    Reply(status, Error(message), [])
  }

  // ---------------------------------------------------------------------------
  // orderBy

  datatype OrderBy = Sort(column: string, asc: bool) | BadOrder

  /**
   * The `orderBy` value: empty means no sort column; otherwise the text before
   * the first ':' is the column, and a second part must be `asc` or `desc` (no
   * second part means descending). Parts after the second are not looked at.
   */
  function ParseOrderBy(value: string): (r: OrderBy)
    ensures r.Sort? ==> Free(r.column, ':') && r.column <= value
    ensures r.Sort? ==> |r.column| == |value| || value[|r.column|] == ':'
    ensures value == "" ==> r == Sort("", false)
  {
    if value == "" then Sort("", false)
    else
      var parts := Split(value, ':');
      SplitHead(value, ':');
      if |parts| > 1 then
        if parts[1] == "asc" then Sort(parts[0], true)
        else if parts[1] == "desc" then Sort(parts[0], false)
        else BadOrder
      else Sort(parts[0], false)
  }

  /** `col:asc` and `col:desc` read back as the column and its direction. */
  lemma OrderByRoundTrip(column: string, asc: bool)
    requires Free(column, ':')
    ensures ParseOrderBy(column + ":" + Direction(asc)) == Sort(column, asc)
  {
    SplitAt(column, Direction(asc), ':');
    SplitFree(column, ':');
    SplitFree(Direction(asc), ':');
  }

  /** A bare column sorts descending. */
  lemma OrderByColumnOnly(column: string)
    requires Free(column, ':')
    ensures ParseOrderBy(column) == Sort(column, false)
  {
    SplitFree(column, ':');
  }

  /** Anything after a second ':' is ignored. */
  lemma OrderByIgnoresTail(column: string, direction: string, tail: string)
    requires Free(column, ':') && Free(direction, ':')
    ensures ParseOrderBy(column + ":" + direction + ":" + tail) == ParseOrderBy(column + ":" + direction)
  {
    SplitAt(column, direction, ':');
    SplitAt(column + ":" + direction, tail, ':');
    SplitFree(column, ':');
    SplitFree(direction, ':');
  }

  /** A second part other than `asc` or `desc` is refused. */
  lemma OrderByBadDirection(column: string, direction: string)
    requires Free(column, ':') && Free(direction, ':')
    ensures ParseOrderBy(column + ":" + direction) == BadOrder <==> direction != "asc" && direction != "desc"
  {
    SplitAt(column, direction, ':');
    SplitFree(column, ':');
    SplitFree(direction, ':');
  }

  /** The categories listing sorts `position` by the `pos` column; every other name is kept. */
  function CategorySortColumn(column: string): (c: string)
    ensures column == "position" ==> c == "pos"
    ensures column != "position" ==> c == column
  {
    if column == "position" then "pos" else column
  }

  // ---------------------------------------------------------------------------
  // The list answer

  /**
   * The `[start:end]` slice of a list, None outside `0 <= start <= end <= len`. Go's
   * own upper bound is the capacity, not the length; at the one call site end is
   * at most the length, and there the two rules agree.
   */
  function Slice<T>(items: seq<T>, start: int, end: int): (r: Option<seq<T>>)
    ensures r.Some? <==> 0 <= start <= end <= |items|
    ensures r.Some? ==> |r.value| == end - start
    ensures r.Some? ==> forall i :: 0 <= i < |r.value| ==> r.value[i] == items[start + i]
  {
    if 0 <= start <= end <= |items| then Some(items[start..end]) else None
  }

  /**
   * The tail shared by both listings: a window that starts past the last item is
   * "Page does not exist"; otherwise the pagination headers are set (which
   * panics for perPage 0) and the window, cut at the number of items, is sent.
   */
  function ListPage<T>(q: Query, items: seq<T>, p: Pagination, uri: int -> string): (r: Reply<seq<T>>)
    ensures p.start > |items| - 1 ==> r == Fail(STATUS_BAD_REQUEST, "Page does not exist")
    ensures p.start <= |items| - 1 ==>
              (r.Aborted? <==> p.perPage == 0 || p.start < 0 || p.start > p.end)
    ensures r.Reply? && r.status == STATUS_OK ==>
              var end := if p.end > |items| then |items| else p.end;
              && r.body == Json(items[p.start..end])
              && Some(r.headers) == SetPaginationHeaders(q, p, |items|, uri)
    ensures r.Reply? ==> r.status == STATUS_OK || r.status == STATUS_BAD_REQUEST
  {
    var total := |items|;
    if p.start > total - 1 then Fail(STATUS_BAD_REQUEST, "Page does not exist")
    else
      var end := if p.end > total then total else p.end;
      match SetPaginationHeaders(q, p, total, uri)
      case None => Aborted
      case Some(headers) =>
        match Slice(items, p.start, end)
        case None => Aborted
        case Some(window) => Reply(STATUS_OK, Json(window), headers)
  }

  /** A store's list call: offset, limit, sort column and direction to rows and an error. */
  type Lister<T> = (int, int, string, bool) -> (seq<T>, Option<DbError>)

  /** GET /v1/products. */
  function ListProducts(q: Query, list: Lister<Product>, uri: int -> string): (r: Reply<seq<Product>>)
    ensures ParseOrderBy(FormValue(q, "orderBy")).BadOrder? ==>
              r == Fail(STATUS_BAD_REQUEST, "Bad order by value. Example \"orderBy=price:asc\"")
    ensures ParseOrderBy(FormValue(q, "orderBy")).Sort? && GetPaginationFromRequest(q).err.Some? ==>
              r == Fail(STATUS_INTERNAL_SERVER_ERROR, "Error in pagination values")
    ensures ParseOrderBy(FormValue(q, "orderBy")).Sort? && GetPaginationFromRequest(q).err.None? ==>
              var o := ParseOrderBy(FormValue(q, "orderBy"));
              var p := GetPaginationFromRequest(q).p;
              var (items, err) := list(p.offset, p.limit, o.column, o.asc);
              && (err.Some? ==> r == Fail(STATUS_INTERNAL_SERVER_ERROR, "Error while getting products"))
              && (err.None? ==> r == ListPage(q, items, p, uri))
  {
    match ParseOrderBy(FormValue(q, "orderBy"))
    case BadOrder => Fail(STATUS_BAD_REQUEST, "Bad order by value. Example \"orderBy=price:asc\"")
    case Sort(column, asc) =>
      var resolved := GetPaginationFromRequest(q);
      if resolved.err.Some? then Fail(STATUS_INTERNAL_SERVER_ERROR, "Error in pagination values")
      else
        var p := resolved.p;
        var (items, err) := list(p.offset, p.limit, column, asc);
        if err.Some? then Fail(STATUS_INTERNAL_SERVER_ERROR, "Error while getting products")
        else ListPage(q, items, p, uri)
  }

  /** GET /v1/categories: as the products listing, with the `position` alias and a 400 for a refused column. */
  function ListCategories(q: Query, list: Lister<Category>, uri: int -> string): (r: Reply<seq<Category>>)
    ensures ParseOrderBy(FormValue(q, "orderBy")).BadOrder? ==>
              r == Fail(STATUS_BAD_REQUEST, "Bad order by value. Example \"orderBy=title:asc\"")
    ensures ParseOrderBy(FormValue(q, "orderBy")).Sort? && GetPaginationFromRequest(q).err.Some? ==>
              r == Fail(STATUS_INTERNAL_SERVER_ERROR, "Error in pagination values")
    ensures ParseOrderBy(FormValue(q, "orderBy")).Sort? && GetPaginationFromRequest(q).err.None? ==>
              var o := ParseOrderBy(FormValue(q, "orderBy"));
              var p := GetPaginationFromRequest(q).p;
              var (items, err) := list(p.offset, p.limit, CategorySortColumn(o.column), o.asc);
              && (err == Some(SqlInjectionAttempt) ==>
                    r == Fail(STATUS_BAD_REQUEST, "Bad parameters given (I saw what you did there ;) )"))
              && (err.Some? && err != Some(SqlInjectionAttempt) ==>
                    r == Fail(STATUS_INTERNAL_SERVER_ERROR, "Error while getting categories"))
              && (err.None? ==> r == ListPage(q, items, p, uri))
  {
    match ParseOrderBy(FormValue(q, "orderBy"))
    case BadOrder => Fail(STATUS_BAD_REQUEST, "Bad order by value. Example \"orderBy=title:asc\"")
    case Sort(column, asc) =>
      var resolved := GetPaginationFromRequest(q);
      if resolved.err.Some? then Fail(STATUS_INTERNAL_SERVER_ERROR, "Error in pagination values")
      else
        var p := resolved.p;
        var (items, err) := list(p.offset, p.limit, CategorySortColumn(column), asc);
        if err == Some(SqlInjectionAttempt) then
          Fail(STATUS_BAD_REQUEST, "Bad parameters given (I saw what you did there ;) )")
        else if err.Some? then Fail(STATUS_INTERNAL_SERVER_ERROR, "Error while getting categories")
        else ListPage(q, items, p, uri)
  }

  /** A refused sort column is a 400 for categories but a 500 for products. */
  lemma InjectionStatus(q: Query, products: Lister<Product>, categories: Lister<Category>, uri: int -> string)
    requires ParseOrderBy(FormValue(q, "orderBy")).Sort? && GetPaginationFromRequest(q).err.None?
    requires forall o: int, l: int, c: string, a: bool :: products(o, l, c, a).1 == Some(SqlInjectionAttempt)
    requires forall o: int, l: int, c: string, a: bool :: categories(o, l, c, a).1 == Some(SqlInjectionAttempt)
    ensures ListProducts(q, products, uri).Reply? && ListProducts(q, products, uri).status == STATUS_INTERNAL_SERVER_ERROR
    ensures ListCategories(q, categories, uri).Reply? && ListCategories(q, categories, uri).status == STATUS_BAD_REQUEST
  {
  }

  /** A pagination failure is answered before the store is asked: the reply does not depend on it. */
  lemma PaginationFailureIgnoresStore(q: Query, list1: Lister<Product>, list2: Lister<Product>, uri: int -> string)
    requires GetPaginationFromRequest(q).err.Some?
    ensures ListProducts(q, list1, uri) == ListProducts(q, list2, uri)
  {
  }

  /**
   * An empty result is never a page: it is "Page does not exist" whenever the
   * window starts at 0 or later (a negative start panics in the slice instead).
   */
  lemma EmptyListIsBadRequest<T>(q: Query, p: Pagination, uri: int -> string)
    ensures p.start >= 0 ==> ListPage<T>(q, [], p, uri) == Fail(STATUS_BAD_REQUEST, "Page does not exist")
    ensures p.start < 0 ==> ListPage<T>(q, [], p, uri).Aborted?
  {
  }

  /**
   * When the store honoured the LIMIT it was sent (at most `limit` rows for a
   * positive limit) and the window arithmetic does not overflow, a page that
   * is sent holds at least one item and at most the requested perPage, before the
   * clamp to the limit.
   */
  lemma {:induction false} PageLength<T>(q: Query, items: seq<T>, page: int, perPage: int, offset: int, limit: int, uri: int -> string)
    requires 1 <= page && 1 <= perPage && perPage * page <= MAX_INT64
    requires limit > 0 ==> |items| <= limit
    ensures var w := ResolveWindow(page, perPage, limit);
      var r := ListPage(q, items, Pg.Pagination(page, w.perPage, offset, limit, w.start, w.end), uri);
      r.Reply? && r.status == STATUS_OK ==> 1 <= |r.body.value| <= perPage
  {
    var w := ResolveWindow(page, perPage, limit);
    WindowWithoutOverflow(page, perPage, limit);
    var p := Pg.Pagination(page, w.perPage, offset, limit, w.start, w.end);
    var r := ListPage(q, items, p, uri);
    if r.Reply? && r.status == STATUS_OK {
      var end := if p.end > |items| then |items| else p.end;
      assert |r.body.value| == end - p.start;
      if limit != 0 && perPage * page > limit {
        assert limit > 0;
      }
    }
  }

  // ---------------------------------------------------------------------------
  // Point reads

  /** A cache lookup: the cached text and the cache's error. */
  type CacheRead = string -> (string, Option<string>)

  /** A cached answer is used iff the cache reported no error and the text is non-empty. */
  predicate CacheHit(cached: string, err: Option<string>) {
    err.None? && cached != ""
  }

  /** GET /v1/products/{id}: the cached text verbatim on a hit, else the store's record. */
  function GetProduct(id: string, cache: CacheRead, get: string -> (Product, Option<DbError>)): (r: Reply<Product>)
    ensures CacheHit(cache(id).0, cache(id).1) ==> r == Reply(STATUS_OK, Cached(cache(id).0), [])
    ensures !CacheHit(cache(id).0, cache(id).1) ==>
              && (get(id).1.Some? ==> r == Fail(STATUS_INTERNAL_SERVER_ERROR, "Error while getting product"))
              && (get(id).1.None? ==> r == Reply(STATUS_OK, Json(get(id).0), []))
  {
    var (cached, cacheErr) := cache(id);
    if CacheHit(cached, cacheErr) then Reply(STATUS_OK, Cached(cached), [])
    else
      var (product, err) := get(id);
      if err.Some? then Fail(STATUS_INTERNAL_SERVER_ERROR, "Error while getting product")
      else Reply(STATUS_OK, Json(product), [])
  }

  /** A hit is answered without the store: its reply is the same whatever the store holds. */
  lemma CacheHitIgnoresStore(id: string, cache: CacheRead, get1: string -> (Product, Option<DbError>), get2: string -> (Product, Option<DbError>))
    requires CacheHit(cache(id).0, cache(id).1)
    ensures GetProduct(id, cache, get1) == GetProduct(id, cache, get2)
  {
  }

  /** A cache error or an empty cached text falls through to the store. */
  lemma CacheMissAsksStore(id: string, cache1: CacheRead, cache2: CacheRead, get: string -> (Product, Option<DbError>))
    requires !CacheHit(cache1(id).0, cache1(id).1) && !CacheHit(cache2(id).0, cache2(id).1)
    ensures GetProduct(id, cache1, get) == GetProduct(id, cache2, get)
  {
  }

  /**
   * GET /v1/categories/{id}: an id that Atoi refuses is a 400 before the cache is
   * read; the cache is keyed by the id text as given, the store by its value.
   */
  function GetCategory(idText: string, cache: CacheRead, get: int -> (Category, Option<DbError>)): (r: Reply<Category>)
    ensures Atoi(idText).err.Some? ==> r == Fail(STATUS_BAD_REQUEST, "Bad category id")
    ensures Atoi(idText).err.None? && CacheHit(cache(idText).0, cache(idText).1) ==>
              r == Reply(STATUS_OK, Cached(cache(idText).0), [])
    ensures Atoi(idText).err.None? && !CacheHit(cache(idText).0, cache(idText).1) ==>
              var (category, err) := get(Atoi(idText).value);
              && (err.Some? ==> r == Fail(STATUS_INTERNAL_SERVER_ERROR, "Error while getting category"))
              && (err.None? ==> r == Reply(STATUS_OK, Json(category), []))
  {
    var parsed := Atoi(idText);
    if parsed.err.Some? then Fail(STATUS_BAD_REQUEST, "Bad category id")
    else
      var (cached, cacheErr) := cache(idText);
      if CacheHit(cached, cacheErr) then Reply(STATUS_OK, Cached(cached), [])
      else
        var (category, err) := get(parsed.value);
        if err.Some? then Fail(STATUS_INTERNAL_SERVER_ERROR, "Error while getting category")
        else Reply(STATUS_OK, Json(category), [])
  }

  /** A refused id never reaches the cache or the store. */
  lemma BadCategoryIdIgnoresStorage(idText: string, cache1: CacheRead, cache2: CacheRead,
                                    get1: int -> (Category, Option<DbError>), get2: int -> (Category, Option<DbError>))
    requires Atoi(idText).err.Some?
    ensures GetCategory(idText, cache1, get1) == GetCategory(idText, cache2, get2)
  {
  }

  /** "07" and "7" name the same stored category but are different cache keys. */
  lemma LeadingZeroSameCategory()
    ensures Atoi("07") == Atoi("7") == Parsed(7, None)
    ensures "07" != "7"
  {
    assert "07"[1..] == "7";
    AtoiSucceeds("07");
    AtoiSucceeds("7");
    assert DigitsValue("7") == 7;
    assert DigitsValue("07") == DigitsValue("0") * 10 + 7;
  }

  // ---------------------------------------------------------------------------
  // Writes

  /** The request body as read, None when reading it failed. */
  type RequestBody = Option<string>

  /** json.Unmarshal of a body over a record: None when it fails, else the record with the body's fields set. */
  type Decoder<!T> = (string, T) -> Option<T>

  /** POST /v1/products: decode over the zero product, insert, answer with the new id. */
  function CreateProduct(body: RequestBody, decode: Decoder<Product>, add: Product -> (string, Option<DbError>)): (r: Reply<Product>)
    ensures body.None? ==> r == Fail(STATUS_BAD_REQUEST, "Invalid POST request")
    ensures body.Some? && decode(body.value, ZERO_PRODUCT).None? ==> r == Fail(STATUS_BAD_REQUEST, "Invalid POST request")
    ensures body.Some? && decode(body.value, ZERO_PRODUCT).Some? ==>
              var (id, err) := add(decode(body.value, ZERO_PRODUCT).value);
              && (err.Some? ==> r == Fail(STATUS_INTERNAL_SERVER_ERROR, "Product could not be added"))
              && (err.None? ==> r == Reply(STATUS_CREATED, Message("Product with id " + id + " was created"), []))
  {
    if body.None? then Fail(STATUS_BAD_REQUEST, "Invalid POST request")
    else match decode(body.value, ZERO_PRODUCT)
      case None => Fail(STATUS_BAD_REQUEST, "Invalid POST request")
      case Some(product) =>
        var (id, err) := add(product);
        if err.Some? then Fail(STATUS_INTERNAL_SERVER_ERROR, "Product could not be added")
        else Reply(STATUS_CREATED, Message("Product with id " + id + " was created"), [])
  }

  /**
   * PATCH /v1/products/{id}: the stored record is read first, the body is decoded
   * over it and the result is written back. The write goes to the id the
   * decoded record carries; the URL id only appears in the message.
   */
  function UpdateProduct(id: string, body: RequestBody, decode: Decoder<Product>,
                         get: string -> (Product, Option<DbError>), update: Product -> Option<DbError>): (r: Reply<Product>)
    ensures get(id).1.Some? ==> r == Fail(STATUS_INTERNAL_SERVER_ERROR, "Error while getting product")
    ensures get(id).1.None? && (body.None? || decode(body.value, get(id).0).None?) ==>
              r == Fail(STATUS_BAD_REQUEST, "Invalid POST request")
    ensures get(id).1.None? && body.Some? && decode(body.value, get(id).0).Some? ==>
              var err := update(decode(body.value, get(id).0).value);
              && (err.Some? ==> r == Fail(STATUS_INTERNAL_SERVER_ERROR, "Product could not be updated"))
              && (err.None? ==> r == Reply(STATUS_CREATED, Message("Product with id " + id + " was updated"), []))
  {
    var (stored, err) := get(id);
    if err.Some? then Fail(STATUS_INTERNAL_SERVER_ERROR, "Error while getting product")
    else if body.None? then Fail(STATUS_BAD_REQUEST, "Invalid POST request")
    else match decode(body.value, stored)
      case None => Fail(STATUS_BAD_REQUEST, "Invalid POST request")
      case Some(product) =>
        if update(product).Some? then Fail(STATUS_INTERNAL_SERVER_ERROR, "Product could not be updated")
        else Reply(STATUS_CREATED, Message("Product with id " + id + " was updated"), [])
  }

  /** DELETE /v1/products/{id}. */
  function DeleteProduct(id: string, delete: string -> Option<DbError>): (r: Reply<Product>)
    ensures r.Reply? && r.body.Message? <==> delete(id).None?
    ensures delete(id).Some? ==> r == Fail(STATUS_INTERNAL_SERVER_ERROR, "Error while deleting product")
    ensures delete(id).None? ==> r == Reply(STATUS_OK, Message("Product with id " + id + " was deleted"), [])
  {
    if delete(id).Some? then Fail(STATUS_INTERNAL_SERVER_ERROR, "Error while deleting product")
    else Reply(STATUS_OK, Message("Product with id " + id + " was deleted"), [])
  }

  /** POST /v1/categories. */
  function CreateCategory(body: RequestBody, decode: Decoder<Category>, add: Category -> Option<DbError>): (r: Reply<Category>)
    ensures body.None? ==> r == Fail(STATUS_BAD_REQUEST, "Invalid POST request")
    ensures body.Some? && decode(body.value, ZERO_CATEGORY).None? ==> r == Fail(STATUS_BAD_REQUEST, "Invalid POST request")
    ensures body.Some? && decode(body.value, ZERO_CATEGORY).Some? ==>
              var err := add(decode(body.value, ZERO_CATEGORY).value);
              && (err.Some? ==> r == Fail(STATUS_INTERNAL_SERVER_ERROR, "Category could not be added"))
              && (err.None? ==> r == Reply(STATUS_CREATED, Message("Category was created successfully"), []))
  {
    if body.None? then Fail(STATUS_BAD_REQUEST, "Invalid POST request")
    else match decode(body.value, ZERO_CATEGORY)
      case None => Fail(STATUS_BAD_REQUEST, "Invalid POST request")
      case Some(category) =>
        if add(category).Some? then Fail(STATUS_INTERNAL_SERVER_ERROR, "Category could not be added")
        else Reply(STATUS_CREATED, Message("Category was created successfully"), [])
  }

  /**
   * PATCH /v1/categories/{id}: a refused id is a 400 before the store is read;
   * the message names the parsed id in decimal.
   */
  function UpdateCategory(idText: string, body: RequestBody, decode: Decoder<Category>,
                          get: int -> (Category, Option<DbError>), update: Category -> Option<DbError>): (r: Reply<Category>)
    ensures Atoi(idText).err.Some? ==> r == Fail(STATUS_BAD_REQUEST, "Bad category id")
    ensures Atoi(idText).err.None? ==>
              var id := Atoi(idText).value;
              && (get(id).1.Some? ==> r == Fail(STATUS_INTERNAL_SERVER_ERROR, "Error while getting category"))
              && (get(id).1.None? && (body.None? || decode(body.value, get(id).0).None?) ==>
                    r == Fail(STATUS_BAD_REQUEST, "Invalid POST request"))
              && (get(id).1.None? && body.Some? && decode(body.value, get(id).0).Some? ==>
                    var err := update(decode(body.value, get(id).0).value);
                    && (err.Some? ==> r == Fail(STATUS_INTERNAL_SERVER_ERROR, "Category could not be updated"))
                    && (err.None? ==> r == Reply(STATUS_CREATED, Message("Category with id " + FormatInt(id) + " was updated"), [])))
  {
    var parsed := Atoi(idText);
    if parsed.err.Some? then Fail(STATUS_BAD_REQUEST, "Bad category id")
    else
      var (stored, err) := get(parsed.value);
      if err.Some? then Fail(STATUS_INTERNAL_SERVER_ERROR, "Error while getting category")
      else if body.None? then Fail(STATUS_BAD_REQUEST, "Invalid POST request")
      else match decode(body.value, stored)
        case None => Fail(STATUS_BAD_REQUEST, "Invalid POST request")
        case Some(category) =>
          if update(category).Some? then Fail(STATUS_INTERNAL_SERVER_ERROR, "Category could not be updated")
          else Reply(STATUS_CREATED, Message("Category with id " + FormatInt(parsed.value) + " was updated"), [])
  }

  /** DELETE /v1/categories/{id}. */
  function DeleteCategory(idText: string, delete: int -> Option<DbError>): (r: Reply<Category>)
    ensures Atoi(idText).err.Some? ==> r == Fail(STATUS_BAD_REQUEST, "Bad category id")
    ensures Atoi(idText).err.None? && delete(Atoi(idText).value).Some? ==>
              r == Fail(STATUS_INTERNAL_SERVER_ERROR, "Error while deleting category")
    ensures Atoi(idText).err.None? && delete(Atoi(idText).value).None? ==>
              r == Reply(STATUS_OK, Message("Category with id " + FormatInt(Atoi(idText).value) + " was deleted"), [])
  {
    var parsed := Atoi(idText);
    if parsed.err.Some? then Fail(STATUS_BAD_REQUEST, "Bad category id")
    else if delete(parsed.value).Some? then Fail(STATUS_INTERNAL_SERVER_ERROR, "Error while deleting category")
    else Reply(STATUS_OK, Message("Category with id " + FormatInt(parsed.value) + " was deleted"), [])
  }

  /** The message names the id in canonical decimal, whatever form the URL gave it in. */
  lemma DeleteMessageCanonical(idText: string, delete: int -> Option<DbError>)
    requires Atoi(idText).err.None? && delete(Atoi(idText).value).None?
    ensures DeleteCategory(idText, delete).body.Message?
    ensures Atoi(FormatInt(Atoi(idText).value)) == Atoi(idText)
  {
    FormatIntRoundTrip(Atoi(idText).value);
  }
}
