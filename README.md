# small-api core in Dafny

This project models the core of small-api, a product and category catalogue
served over HTTP. It covers the decisions that do not depend on the network:

- **Paging a list request.** The `page`, `perPage`, `offset` and `limit`
  parameters become a window `[start, end)`. The answer carries echo headers
  and a `Link` header with self, first, next, prev and last entries.
- **The relational store layer.** A whitelist controls which sort column may be
  spliced into SQL. The list query is built clause by clause, and a row loop
  stops at the first scan error. The point statements bind their arguments in
  a fixed order. The whitelist and the text of the point statements, with
  their `?` placeholders, are in module `SqlText`; the rest is in `MySql`.
- **The handlers' decisions.** This covers `orderBy` parsing, the
  `position`→`pos` alias, the "Page does not exist" check and the slice, the
  status code each failure maps to, the cache-hit rule and the validation of
  category ids.
- **The in-memory cache.** It holds three independent string maps.
- **The in-memory store.** It keeps slices of products and categories. Its
  deletes have two quirks. A match at index 0 is reported as not found. The
  removal shifts elements inside the slice, which keeps its length.

Go's `int` is a 64-bit integer. `perPage*page`, `lastPage+1` and the next
category id wrap around as Go's do. `/` and `%` truncate toward zero
(module `GoInt`). `strconv.Atoi` is modelled exactly, including what it
returns together with an error: 0 for a syntax error, and the clamped bound
for a range error. The links use that value with the error ignored. `%d` is
`Strconv.FormatInt`, proved to read back through `Atoi`. `strings.Split` and
`strings.Join` with a one-character separator are in module `Strings`.

Where the handlers call something outside the core, the model takes it as a
function parameter:

- the store;
- the cache;
- reading the request body;
- JSON decoding;
- the SQL driver;
- the URI builder for links.

A Go panic is an explicit outcome. Division by zero when `perPage` is 0 gives
`Headers.DivideByZero`, and an out-of-range slice gives `Reply.Aborted`.

Modules:

- `Wrappers`: Option and Result.
- `GoInt`: int64 arithmetic.
- `Strconv`: `Atoi` and `%d`.
- `Strings`: Split and Join, with their round trip.
- `Model`: the product and category records.
- `Pagination`: `pkg/api/pagination.go`.
- `PaginationVectors`: the cases of `pkg/api/pagination_test.go`.
- `MySql`: `pkg/services/mysql.go`.
- `Api`: `pkg/api/api.go`.
- `Cache`: `pkg/cache/cachermock.go`, as the class `CacherMock`.
- `DbMock`: `pkg/services/dbservicemock.go`, as the class `DbServiceMock`.

The code and its tests disagree in one place, and the model follows the code.
`pkg/api/pagination_test.go:36-73` expects windows shifted by the offset, for
example start 160 for `perPage=20&offset=100&page=4`. The code never adds the
offset, so the window is `[60, 80)`. The lemmas in `PaginationVectors` state
what the code computes.

## Model

| member | source | states |
|---|---|---|
| Strconv.AtoiSucceeds | pkg/api/pagination.go:25-54 | Atoi reports no error exactly for an optional sign followed by digits whose value fits in int64, and then returns that value |
| Strconv.FormatIntRoundTrip | pkg/api/pagination.go:69-72 | every int64 formatted with %d reads back through Atoi as itself, with no error |
| Strings.SplitJoin | pkg/api/pagination.go:76 | splitting a join on its separator gives the elements back when none of them contains the separator |
| Strings.SplitHead | pkg/api/api.go:75-77 | the first piece of a split is the colon-free text before the first separator, and a prefix of the input |
| Pagination.ResolveWindow | pkg/api/pagination.go:55-64 | with a positive limit the returned perPage never exceeds the limit; with a non-zero limit end never exceeds the limit; perPage is never raised |
| Pagination.GetPaginationFromRequest | pkg/api/pagination.go:21-66 | fails exactly when a present page/perPage/offset/limit is not a valid int64 numeral, and then returns the empty record; otherwise it holds the parsed values (defaults page 1, perPage 10, offset 0, limit 0) with the window computed from the unclamped perPage and without the offset |
| Pagination.WindowWithoutOverflow | pkg/api/pagination.go:55-62 | without overflow, start = perPage*(page-1); end - start = perPage unless a non-zero limit below perPage*page cuts end to the limit; perPage is clamped to a smaller positive limit |
| Pagination.EffectiveLimit | pkg/api/pagination.go:97-99 | the bound used for the links is total when limit is 0 or total is smaller, and limit otherwise |
| Pagination.LastPage | pkg/api/pagination.go:100-103 | for a bound in [0, MAX] and a positive perPage, lastPage (truncated quotient, plus one for a positive remainder) is the ceiling of bound/perPage |
| Pagination.NavLinks | pkg/api/pagination.go:125-135 | 3 to 5 links in the order self, first, next, prev, last; next is present iff current+1 <= lastPage, prev iff current-1 != 0; pages are current, 1, current+1, current-1, lastPage |
| Pagination.CalculatePaginationHeaders | pkg/api/pagination.go:80-136 | panics (divide by zero) exactly when perPage is 0; otherwise the caller's record has its limit replaced by the effective limit and the links are NavLinks of the current page and lastPage |
| Pagination.FormatLinks | pkg/api/pagination.go:125-133 | one `<uri>; rel="…"` entry per link, in link order |
| Pagination.SetPaginationHeaders | pkg/api/pagination.go:68-78 | panics exactly when perPage is 0; otherwise five headers, with limit, page, perPage and offset written from the record before the limit is rewritten, then Link, whose value is the formatted links joined by "," |
| Pagination.EchoHeaders | pkg/api/pagination.go:69-72 | four headers named limit, page, perPage and offset, in that order |
| Pagination.EchoHeadersRoundTrip | pkg/api/pagination.go:69-72 | the echoed limit, page, perPage and offset headers read back through Atoi as the record's values |
| Pagination.LinkHeaderSplits | pkg/api/pagination.go:76-77 | when no URI contains a comma, splitting the Link header on "," gives back exactly the formatted entries |
| Pagination.CurrentPage | pkg/api/pagination.go:90-94 | 1 when `page` is absent; otherwise Atoi of its first value with the error dropped, so always an int64, and 0 or a clamped bound when Atoi fails |
| Pagination.CurrentPageAgrees | pkg/api/pagination.go:90-94 | the links' current page equals the record's page, except for a present but empty `page`, where the links use 0 and the record 1 |
| PaginationVectors.NoParameters | pkg/api/pagination.go:22-34 | no parameters give page 1, perPage 10, offset 0, limit 0, window [0, 10) |
| PaginationVectors.LimitAbovePerPage | pkg/api/pagination_test.go:10-21 | limit=100&perPage=20 gives window [0, 20) |
| PaginationVectors.PerPageClampedToLimit | pkg/api/pagination_test.go:23-34 | limit=10&perPage=20 clamps perPage to 10 with window [0, 10) |
| PaginationVectors.OffsetNotInWindow | pkg/api/pagination_test.go:36-47 | perPage=20&offset=100&page=4 gives window [60, 80), not the [160, 180) the test expects |
| PaginationVectors.OffsetNotInWindowWithLimit | pkg/api/pagination_test.go:49-60 | the same with limit=1000 gives [60, 80) |
| PaginationVectors.OffsetNotInWindowSinglePage | pkg/api/pagination_test.go:62-73 | offset=7&page=1&limit=100&perPage=1 gives [0, 1), not [7, 8) |
| PaginationVectors.FiveLinks | pkg/api/pagination_test.go:75-87 | page 4, limit 1000, total 1000: self 4, first 1, next 5, prev 3, last 50 |
| PaginationVectors.PageFiveParsed | pkg/api/pagination_test.go:89-93 | perPage=20&page=5&limit=100 parses to window [80, 100) with current page 5 |
| PaginationVectors.NoNextLink | pkg/api/pagination_test.go:89-100 | page 5 of limit 100: four links without next, last 5 |
| PaginationVectors.PageOneParsed | pkg/api/pagination_test.go:102-106 | perPage=20&page=1&limit=100 parses to window [0, 20) with current page 1 |
| PaginationVectors.NoPrevLink | pkg/api/pagination_test.go:102-113 | page 1: four links without prev, next 2, last 5 |
| MySql.BuildQuery | pkg/services/mysql.go:27-44 | refused with SqlInjectionAttemptError exactly when the column is non-empty and not entirely `[A-Za-z0-9_]`; otherwise the text starts with `SELECT * FROM <table>` |
| MySql.BuildQueryIsJoinedWords | pkg/services/mysql.go:31-44 | the query text is the words base, `ORDER BY col asc/desc` (only for a non-empty column) and `LIMIT n OFFSET m` plus a trailing space (only for a non-zero limit), joined by single spaces |
| MySql.ParseRender | pkg/services/mysql.go:36-43 | a well-formed clause list rendered as query text reads back as itself |
| MySql.BuildQueryRoundTrip | pkg/services/mysql.go:29-44 | for int64 limit and offset the query text reads back as the requested clauses: the table, the column and direction iff a column was given, limit and offset iff the limit is non-zero |
| MySql.CollectedUnique | pkg/services/mysql.go:49-57 | a cursor has exactly one row-loop outcome |
| MySql.Collect | pkg/services/mysql.go:49-57 | the rows are the scanned rows in cursor order up to the first scan error, which is returned; no error iff every step scanned |
| MySql.GetAll | pkg/services/mysql.go:29-58 | a refused column gives no rows and the injection error before any query; a failed query gives no rows and its error; otherwise the row loop's outcome |
| MySql.GetAllProducts | pkg/services/mysql.go:29-58 | GetAll on the product table |
| MySql.GetAllCategories | pkg/services/mysql.go:98-127 | GetAll on the category table |
| MySql.AddProductArgs | pkg/services/mysql.go:72-73 | six arguments, the i-th being the product's field for the i-th column of `(id, category_id, title, image_url, price, description)` |
| MySql.UpdateProductArgs | pkg/services/mysql.go:81-82 | the SET columns' fields in statement order, then the id last |
| MySql.AddCategoryArgs | pkg/services/mysql.go:139-140 | the fields for `(title, pos, image_url)` in that order |
| MySql.UpdateCategoryArgs | pkg/services/mysql.go:148-149 | the SET columns' fields in statement order, then the id last |
| SqlText.ValidColumn | pkg/services/mysql.go:27 | the whitelist `^[A-Za-z0-9_]+$`: at least one character, each a letter, a digit or `_` |
| SqlText.Render | pkg/services/mysql.go:62-157 | the text of a point statement; the eight `…Text` lemmas below prove that it is the literal of pkg/services/mysql.go for each of the eight statements |
| SqlText.SelectProductText | pkg/services/mysql.go:62 | the product read is `SELECT * FROM product WHERE id=?` |
| SqlText.InsertProductText | pkg/services/mysql.go:72 | the product insert is `INSERT INTO product (id, category_id, title, image_url, price, description) VALUES (?,?,?,?,?,?);` |
| SqlText.UpdateProductText | pkg/services/mysql.go:81 | the product update is `UPDATE product SET category_id=?, title=?, image_url=?, price=?, description=?, updated_at=NOW() WHERE id=?` |
| SqlText.DeleteProductText | pkg/services/mysql.go:90 | the product delete is `DELETE FROM product WHERE id=?` |
| SqlText.SelectCategoryText | pkg/services/mysql.go:131 | the category read is `SELECT * FROM category WHERE id=?` |
| SqlText.InsertCategoryText | pkg/services/mysql.go:139 | the category insert is `INSERT INTO category (title, pos, image_url) VALUES (?,?,?);` |
| SqlText.UpdateCategoryText | pkg/services/mysql.go:148 | the category update is `UPDATE category SET title=?, pos=?, image_url=?, updated_at=NOW() WHERE id=?` |
| SqlText.DeleteCategoryText | pkg/services/mysql.go:157 | the category delete is `DELETE FROM category WHERE id=?` |
| SqlText.PlaceholdersRendered | pkg/services/mysql.go:62-157 | a point statement over whitelisted names has exactly as many `?` placeholders as it binds columns: one per insert column, one per SET column plus the id, or the id alone |
| SqlText.WhereIdLast | pkg/services/mysql.go:62-157 | a read, update or delete by id ends in ` WHERE id=?` and holds all its other placeholders before it, so the last placeholder is the WHERE clause's and the last bound column is `id` |
| MySql.GetProduct | pkg/services/mysql.go:60-67 | the row read by id, or the zero product together with the error |
| MySql.SelectProductBinds | pkg/services/mysql.go:62 | the read by id has one placeholder, bound to the product id |
| MySql.GetCategory | pkg/services/mysql.go:129-136 | the row read by id, or the zero category together with the error |
| MySql.SelectCategoryBinds | pkg/services/mysql.go:131 | the read by id has one placeholder, bound to the category id |
| MySql.AddProduct | pkg/services/mysql.go:69-78 | the insert's six placeholders are bound one for one to the product's fields for `(id, category_id, title, image_url, price, description)`, with the id replaced by the fresh id; the result is that id on success and "" with the error on failure |
| MySql.UpdateProduct | pkg/services/mysql.go:80-87 | the update has six placeholders, bound in order to the product's category_id, title, image_url, price and description, and the last, in `WHERE id=?`, to its id; the result is the driver's error |
| MySql.DeleteProduct | pkg/services/mysql.go:89-96 | the delete has one placeholder, in `WHERE id=?`, bound to the id; the result is the driver's error |
| MySql.AddCategory | pkg/services/mysql.go:138-145 | the insert has three placeholders, bound in order to the category's title, pos and image_url; the id is not bound; the result is the driver's error |
| MySql.UpdateCategory | pkg/services/mysql.go:147-154 | the update has four placeholders, bound in order to the category's title, pos and image_url, and the last, in `WHERE id=?`, to its id; the result is the driver's error |
| MySql.DeleteCategory | pkg/services/mysql.go:156-163 | the delete has one placeholder, in `WHERE id=?`, bound to the id; the result is the driver's error |
| Api.ParseOrderBy | pkg/api/api.go:71-88 | an empty value means no column, sorted descending; otherwise the column is the colon-free text before the first ':' |
| Api.OrderByRoundTrip | pkg/api/api.go:75-87 | `col:asc` and `col:desc` parse to the column and that direction |
| Api.OrderByColumnOnly | pkg/api/api.go:77-78 | a bare column sorts descending |
| Api.OrderByIgnoresTail | pkg/api/api.go:75-78 | parts after the second are ignored |
| Api.OrderByBadDirection | pkg/api/api.go:78-86 | a second part is refused iff it is neither `asc` nor `desc` |
| Api.CategorySortColumn | pkg/api/api.go:218-220 | `position` becomes `pos`, anything else is kept |
| Api.Slice | pkg/api/api.go:111 | defined iff 0 <= start <= end <= len, and then holds the elements start..end-1; this is Go's rule for `[start:end]` at its one call site, where end is at most len |
| Api.ListPage | pkg/api/api.go:102-111 | start > total-1 gives 400 "Page does not exist"; otherwise it panics iff perPage is 0 or the slice is out of range; a 200 carries the pagination headers and items[start:min(end,total)] |
| Api.ListProducts | pkg/api/api.go:70-112 | a bad direction gives 400; a pagination error gives 500; any store error gives 500; otherwise ListPage on the rows fetched with offset, limit, column and direction |
| Api.ListCategories | pkg/api/api.go:193-242 | as ListProducts, but `position` is aliased after pagination parsing and an injection error gives 400 |
| Api.InjectionStatus | pkg/api/api.go:221-231 | the injection error is a 400 for categories and a 500 for products (api.go:95-100) |
| Api.PaginationFailureIgnoresStore | pkg/api/api.go:89-95 | a pagination failure is answered the same whatever the store holds |
| Api.EmptyListIsBadRequest | pkg/api/api.go:102-105 | an empty result is "Page does not exist" when start >= 0, and a panic when start < 0 |
| Api.PageLength | pkg/api/api.go:102-111 | when the store honoured LIMIT and nothing overflows, a 200 page holds between 1 and the unclamped perPage items |
| Api.GetProduct | pkg/api/api.go:114-131 | a hit (no cache error and a non-empty text) is returned verbatim; otherwise the store's record, or 500 on a store error |
| Api.CacheHit | pkg/api/api.go:117 | a cached answer is used iff the cache returned no error and a non-empty text |
| Api.CacheHitIgnoresStore | pkg/api/api.go:117-120 | a hit does not depend on the store |
| Api.CacheMissAsksStore | pkg/api/api.go:117-124 | a cache error and an empty text are answered alike, from the store |
| Api.GetCategory | pkg/api/api.go:244-266 | an id refused by Atoi is a 400 before the cache is read; the cache key is the raw text and the store is asked for the parsed value |
| Api.BadCategoryIdIgnoresStorage | pkg/api/api.go:246-251 | a refused id reaches neither the cache nor the store |
| Api.LeadingZeroSameCategory | pkg/api/api.go:246-259 | "07" and "7" reach the same stored category under different cache keys |
| Api.CreateProduct | pkg/api/api.go:133-152 | a body read or decode failure gives 400; an insert failure gives 500; otherwise 201 naming the new id |
| Api.UpdateProduct | pkg/api/api.go:154-179 | reads the stored record first (500 on failure), decodes the body over it (400) and writes the result (500); success is 201 naming the URL id |
| Api.DeleteProduct | pkg/api/api.go:181-191 | 500 on a store error, otherwise 200 naming the id |
| Api.CreateCategory | pkg/api/api.go:268-286 | 400, 500 or 201 "Category was created successfully" |
| Api.UpdateCategory | pkg/api/api.go:288-318 | a refused id gives 400 first; then the read, decode and write steps as for products; the message names the parsed id in decimal |
| Api.DeleteCategory | pkg/api/api.go:320-335 | a refused id gives 400, a store error 500, otherwise 200 naming the parsed id |
| Api.DeleteMessageCanonical | pkg/api/api.go:334 | the id in the message is the canonical decimal of the parsed value, which reads back as the same Atoi result |
| Cache.Lookup | pkg/cache/cachermock.go:22-27 | the stored text for a present key, "" for an absent one |
| Cache.LookupStored | pkg/cache/cachermock.go:17-27 | Set then Get on the same key returns the stored text |
| Cache.LookupOtherKey | pkg/cache/cachermock.go:17-20 | Set leaves every other key's value unchanged |
| Cache.LookupDeleted | pkg/cache/cachermock.go:29-32 | after Delete the key reads as "" |
| Cache.DeleteAbsent | pkg/cache/cachermock.go:29-32 | deleting an absent key changes nothing |
| Cache.DeleteOtherKey | pkg/cache/cachermock.go:46-49 | Delete leaves every other key's value unchanged |
| Cache.SetOverwrites | pkg/cache/cachermock.go:34-37 | a second Set replaces the first |
| Cache.CacherMock.constructor | pkg/cache/cachermock.go:9-15 | three empty maps |
| Cache.CacherMock.SetProduct | pkg/cache/cachermock.go:17-20 | products gets the key set; categories and responses are unchanged; nil error |
| Cache.CacherMock.GetProduct | pkg/cache/cachermock.go:22-27 | Lookup of the products map; nil error |
| Cache.CacherMock.DeleteProduct | pkg/cache/cachermock.go:29-32 | the key is removed from products only; nil error |
| Cache.CacherMock.SetCategory | pkg/cache/cachermock.go:34-37 | categories gets the key set; the other maps are unchanged; nil error |
| Cache.CacherMock.GetCategory | pkg/cache/cachermock.go:39-44 | Lookup of the categories map; nil error |
| Cache.CacherMock.DeleteCategory | pkg/cache/cachermock.go:46-49 | the key is removed from categories only; nil error |
| Cache.CacherMock.GetAllProducts | pkg/cache/cachermock.go:51-53 | the whole products map; nil error |
| Cache.CacherMock.GetAllCategories | pkg/cache/cachermock.go:55-57 | the whole categories map; nil error |
| Cache.CacherMock.SetApiRequest | pkg/cache/cachermock.go:59-62 | responses gets the path set; the other maps are unchanged; nil error |
| Cache.CacherMock.GetApiRequest | pkg/cache/cachermock.go:64-69 | Lookup of the responses map; nil error |
| Cache.SetGetDelete | pkg/cache/cachermock.go:17-49 | on one cache object: a product written reads back, a category written under the same key does not disturb it, the product reads "" after its delete, and responses are untouched |
| DbMock.IndexOf | pkg/services/dbservicemock.go:48-53 | the index of the first match, with no match before it, or the length when there is none |
| DbMock.Remove | pkg/services/dbservicemock.go:165-171 | the slice without its k-th element |
| DbMock.ShiftLeft | pkg/services/dbservicemock.go:57 | after `removeProdFromSlice` the store's slice keeps its length; entries k..n-2 are the old k+1..n-1 and the last entry is the old last |
| DbMock.ShiftLeftExtendsRemove | pkg/services/dbservicemock.go:165-167 | the discarded removal result is the store's slice minus its last element |
| DbMock.ShiftLeftLast | pkg/services/dbservicemock.go:57 | deleting the last element leaves the slice as it was |
| DbMock.ShiftLeftDropsMatch | pkg/services/dbservicemock.go:57 | the deleted element no longer appears from k on, unless it also occurred later |
| DbMock.GeneratedCategory | pkg/services/dbservicemock.go:137-144 | the i-th category has id i, position i and the i-th listed title; both timestamps are `now` |
| DbMock.GenerateCategories | pkg/services/dbservicemock.go:134-147 | 18 categories with Id == Position == index, the titles of possibleCategories and image `cat<i>.png` |
| DbMock.GeneratedProduct | pkg/services/dbservicemock.go:149-163 | the product carries the drawn UUID and price, a category id from 1 to 18 for an in-range draw, and `now` as both timestamps |
| DbMock.GenerateProducts | pkg/services/dbservicemock.go:126-132 | 200 products, the i-th from the i-th draw, with category ids in 1..18 |
| DbMock.GeneratedCategoryIdsShifted | pkg/services/dbservicemock.go:154 | a product drawn into category 18 names no generated category |
| DbMock.GeneratedCategoryIndex | pkg/services/dbservicemock.go:134-147 | in the generated categories, id i is found at index i |
| DbMock.DbServiceMock.constructor | pkg/services/dbservicemock.go:17-24 | 200 generated products and 18 generated categories |
| DbMock.DbServiceMock.GetProducts | pkg/services/dbservicemock.go:26-28 | the whole slice, whatever the arguments |
| DbMock.DbServiceMock.GetProduct | pkg/services/dbservicemock.go:30-32 | the first product, whatever the id |
| DbMock.DbServiceMock.AddProduct | pkg/services/dbservicemock.go:34-39 | exactly one product is appended, carrying the fresh id; earlier entries are unchanged |
| DbMock.DbServiceMock.UpdateProduct | pkg/services/dbservicemock.go:41-44 | index 0 is overwritten, whatever the id |
| DbMock.DbServiceMock.DeleteProduct | pkg/services/dbservicemock.go:46-59 | no match or a first match at index 0 gives "product not found" and no change; otherwise the slice becomes ShiftLeft at the first match |
| DbMock.DbServiceMock.GetCategories | pkg/services/dbservicemock.go:61-63 | the whole slice, whatever the arguments |
| DbMock.DbServiceMock.GetCategory | pkg/services/dbservicemock.go:65-72 | the first category with the id, otherwise the zero category and "product not found" |
| DbMock.DbServiceMock.AddCategory | pkg/services/dbservicemock.go:74-78 | appends the category with id = last id + 1 (int64 wrap-around) |
| DbMock.DbServiceMock.UpdateCategory | pkg/services/dbservicemock.go:80-88 | replaces the first category with the same id, otherwise "category not found" and no change |
| DbMock.DbServiceMock.DeleteCategory | pkg/services/dbservicemock.go:90-103 | as DeleteProduct, with "category not found" |
| DbMock.DbServiceMock.AddUser | pkg/services/dbservicemock.go:105-107 | always the error "method not implemented" |
| DbMock.DbServiceMock.UserExists | pkg/services/dbservicemock.go:109-111 | always false |
| DbMock.DeleteFirstCategoryRefused | pkg/services/dbservicemock.go:90-103 | on a fresh store, category 0 is found, yet deleting it reports "category not found" |

## Left out

- HTTP glue is not modelled, because it is net/http and gorilla/mux behaviour. This covers routing, `Authenticator`, `Run`, `health`, the response writers, JSON marshalling and its error path.
- The link URIs are not modelled, because URL parsing, query encoding and `path.Join` are library code. A link is a (rel, page) pair, and the text of a URI is the parameter `uri`.
- Query execution, `StructScan`, UUID generation and password hashing are not modelled, because they are foreign calls. The driver is an oracle, and the fresh UUID is a parameter of `MySql.AddProduct`.
- The SQL store's `AddUser` and `UserExists` are not modelled, because they consist only of those foreign calls. The mock's versions are modelled.
- `rows.Err()` is never consulted by pkg/services/mysql.go, and closing the cursor is not modelled.
- Each point statement is a `Statement` value: its table and column list. `Render` builds the text from these. The solver cannot compare string literals much longer than forty characters in one step. So the four longer texts are stated in their `…Text` lemmas as pieces of the Go literal joined by `+`.
- `SqlInjectionAttemptError.Error()` (pkg/services/mysql.go:185-187) is not modelled. No caller in the core reads its text. The handlers only test the error's type, which is `DbError.SqlInjectionAttempt`.
- Pagination.EchoHeaders: keeps the header names as written (`limit`, `page`, `perPage`, `offset`). Go's `Header().Add` canonicalizes them to `Limit`, `Page`, `Perpage` and `Offset`. HTTP compares header names case-insensitively, so no behaviour depends on the spelling.
- pkg/cache/redis.go is not part of this model. It is a client wrapper.
- Cache writes and the response cache are not modelled, because the handlers never write to or consult them.
- Concurrency and the mock's `AllProductsToChan`/`AllCategoriesToChan` are not modelled, because they are channel stubs.
- Process bootstrap (cmd/, internal/config) is not modelled.
- Prices are float32 bit patterns and no arithmetic is done on them.
- The random draws, the generated products' UUIDs and the clock are parameters of the mock's constructor. The UUID of a product added later is a parameter of `DbServiceMock.AddProduct`. The clock is one reading `now`, where the generators call `time.Now()` for each timestamp.
- The mock's `generateProduct` sets a `Category` field that the product record in pkg/model/product.go does not declare. The model drops it.
- `CacherMock.GetAllProducts`/`GetAllCategories` return the map itself in Go, so the caller can mutate it. The model returns its value, and aliasing is not modelled.
- `DbServiceMock.GetProducts`/`GetCategories` return the store's own slice in Go, so the caller shares its backing array. The model returns the sequence's value, and that sharing is not modelled.
- `DbServiceMock.GetProduct`, `UpdateProduct` and `AddCategory` index the slices and would panic on an empty one. The model requires a non-empty slice instead. The constructor creates 200 products and 18 categories, and no operation shrinks a slice.
- A Go panic is an `Aborted` reply with no further detail. The model does not capture what net/http does after recovering from it.
- pkg/api/api_test.go calls a handler `getListProducts` that pkg/api/api.go does not define, so its cases are not modelled.
