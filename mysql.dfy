/**
 * The data access layer over the relational store (AppDb): the sort-column
 * whitelist, the text of the list query, the row loop, and the statements and
 * argument lists of the point reads and writes. The driver is an oracle: a
 * function from query text (and bound arguments) to what the store answers.
 */
module MySql {
  import opened Wrappers
  import opened GoInt
  import opened Strconv
  import opened Strings
  import opened Model
  import opened SqlText

  /** What the layer returns as an error: the whitelist rejection, or a driver failure. */
  datatype DbError = SqlInjectionAttempt | DriverError(message: string)

  datatype Table = ProductTable | CategoryTable

  function TableName(t: Table): string {
    match t
    case ProductTable => "product"
    case CategoryTable => "category"
  }

  function Direction(asc: bool): string {
    if asc then "asc" else "desc"
  }

  /** The clauses of a list query. */
  datatype Order = Order(column: string, asc: bool)
  datatype Range = Range(limit: int, offset: int)
  datatype Select = Select(table: Table, order: Option<Order>, range: Option<Range>)

  /**
   * The query a list call asks for: an ORDER BY clause only for a non-empty
   * column, a LIMIT/OFFSET clause only for a non-zero limit (the offset is dropped
   * with it).
   */
  function Requested(table: Table, offset: int, limit: int, orderBy: string, asc: bool): Select {
    Select(table,
           if |orderBy| > 0 then Some(Order(orderBy, asc)) else None,
           if limit != 0 then Some(Range(limit, offset)) else None)
  }

  /** The words of a query, in the order base, ORDER BY, LIMIT; the LIMIT clause ends with a space. */
  function Words(sel: Select): seq<string> {
    ["SELECT", "*", "FROM", TableName(sel.table)] + OrderClause(sel.order) + RangeClause(sel.range)
  }

  function OrderClause(order: Option<Order>): seq<string> {
    match order
    case None => []
    case Some(o) => ["ORDER", "BY", o.column, Direction(o.asc)]
  }

  function RangeClause(range: Option<Range>): seq<string> {
    match range
    case None => []
    case Some(r) => ["LIMIT", FormatInt(r.limit), "OFFSET", FormatInt(r.offset), ""]
  }

  /** A clause list the query text can carry unambiguously. */
  predicate WellFormed(sel: Select) {
    && (sel.order.Some? ==> ValidColumn(sel.order.value.column))
    && RangeWellFormed(sel.range)
  }

  predicate RangeWellFormed(range: Option<Range>) {
    range.Some? ==> range.value.limit != 0 && InInt64(range.value.limit) && InInt64(range.value.offset)
  }

  /**
   * Reads the clauses back out of a query text, word by word; None for a text
   * that is not a list query of this shape.
   */
  function ParseSelect(q: string): Option<Select> {
    ParseWords(Split(q, ' '))
  }

  function ParseWords(w: seq<string>): Option<Select> {
    if |w| < 4 || w[0] != "SELECT" || w[1] != "*" || w[2] != "FROM" then None
    else if w[3] != "product" && w[3] != "category" then None
    else
      var table := if w[3] == "product" then ProductTable else CategoryTable;
      var (order, rest) := ParseOrder(w[4..]);
      match ParseRange(rest)
      case None => None
      case Some(range) => Some(Select(table, order, range))
  }

  /** The optional ORDER BY clause, and the words after it. */
  function ParseOrder(rest: seq<string>): (Option<Order>, seq<string>) {
    if |rest| >= 4 && rest[0] == "ORDER" && rest[1] == "BY" && ValidColumn(rest[2])
       && (rest[3] == "asc" || rest[3] == "desc")
    then (Some(Order(rest[2], rest[3] == "asc")), rest[4..])
    else (None, rest)
  }

  /** The optional LIMIT clause: nothing, or exactly LIMIT <n> OFFSET <m> and the trailing empty word. */
  function ParseRange(rest: seq<string>): Option<Option<Range>> {
    if rest == [] then Some(None)
    else if |rest| == 5 && rest[0] == "LIMIT" && rest[2] == "OFFSET" && rest[4] == ""
            && Atoi(rest[1]).err.None? && Atoi(rest[3]).err.None? && Atoi(rest[1]).value != 0
    then Some(Some(Range(Atoi(rest[1]).value, Atoi(rest[3]).value)))
    else None
  }

  /**
   * The query text GetAllProducts / GetAllCategories send: the base query, then
   * ` ORDER BY <col> <dir>` for a non-empty column, then ` LIMIT <n> OFFSET <m> `
   * for a non-zero limit. A non-empty column outside the whitelist is refused
   * before any text is built.
   */
  function BuildQuery(table: Table, offset: int, limit: int, orderBy: string, asc: bool): (r: Result<string, DbError>)
    ensures r.Failure? <==> |orderBy| > 0 && !ValidColumn(orderBy)
    ensures r.Failure? ==> r.error == SqlInjectionAttempt
    ensures r.Success? ==> "SELECT * FROM " + TableName(table) <= r.value
  {
    if |orderBy| > 0 && !ValidColumn(orderBy) then Failure(SqlInjectionAttempt)
    else
      var q := "SELECT * FROM " + TableName(table);
      var q := if |orderBy| > 0 then q + " ORDER BY " + orderBy + " " + Direction(asc) else q;
      var q := if limit != 0 then q + " LIMIT " + FormatInt(limit) + " OFFSET " + FormatInt(offset) + " " else q;
      Success(q)
  }

  /** The text BuildQuery builds is exactly the words of the requested clauses, joined by single spaces. */
  lemma BuildQueryIsJoinedWords(table: Table, offset: int, limit: int, orderBy: string, asc: bool)
    requires BuildQuery(table, offset, limit, orderBy, asc).Success?
    ensures BuildQuery(table, offset, limit, orderBy, asc).value
         == Join(Words(Requested(table, offset, limit, orderBy, asc)), ' ')
  {
    var base := ["SELECT", "*", "FROM", TableName(table)];
    var ord: seq<string> := if |orderBy| > 0 then ["ORDER", "BY", orderBy, Direction(asc)] else [];
    var rng: seq<string> := if limit != 0 then ["LIMIT", FormatInt(limit), "OFFSET", FormatInt(offset), ""] else [];
    assert Words(Requested(table, offset, limit, orderBy, asc)) == base + ord + rng;
    var q := "SELECT * FROM " + TableName(table);
    BaseWords(table);
    var q1 := if |orderBy| > 0 then q + " ORDER BY " + orderBy + " " + Direction(asc) else q;
    if |orderBy| > 0 {
      OrderJoin(base, q, orderBy, asc);
    } else {
      assert base + ord == base;
    }
    assert Join(base + ord, ' ') == q1;
    if limit != 0 {
      RangeJoin(base + ord, q1, FormatInt(limit), FormatInt(offset));
    } else {
      assert base + ord + rng == base + ord;
    }
  }

  lemma {:induction false} JoinAppend(a: seq<string>, b: seq<string>, sep: char)
    requires |a| >= 1 && |b| >= 1
    ensures Join(a + b, sep) == Join(a, sep) + [sep] + Join(b, sep)
  {
    var ab := a + b;
    assert ab[0] == a[0];
    if |a| == 1 {
      assert ab[1..] == b;
      assert Join(ab, sep) == a[0] + [sep] + Join(b, sep);
    } else {
      assert ab[1..] == a[1..] + b;
      JoinAppend(a[1..], b, sep);
      var x, y, z := Join(a[1..], sep), [sep], Join(b, sep);
      assert Join(ab, sep) == a[0] + y + (x + y + z);
      assert Join(a, sep) == a[0] + y + x;
      assert a[0] + y + (x + y + z) == (a[0] + y + x) + y + z;
    }
  }

  lemma JoinCons(x: string, rest: seq<string>, sep: char)
    requires |rest| >= 1
    ensures Join([x] + rest, sep) == x + [sep] + Join(rest, sep)
  {
    assert ([x] + rest)[1..] == rest;
  }

  /** The words joined by spaces, four at a time. */
  lemma JoinFour(a: string, b: string, c: string, d: string)
    ensures Join([a, b, c, d], ' ') == a + " " + b + " " + c + " " + d
  {
    JoinCons(c, [d], ' ');
    assert [c, d] == [c] + [d];
    JoinCons(b, [c, d], ' ');
    assert [b, c, d] == [b] + [c, d];
    JoinCons(a, [b, c, d], ' ');
    assert [a, b, c, d] == [a] + [b, c, d];
  }

  lemma JoinFive(a: string, b: string, c: string, d: string, e: string)
    ensures Join([a, b, c, d, e], ' ') == a + " " + b + " " + c + " " + d + " " + e
  {
    JoinFour(b, c, d, e);
    JoinCons(a, [b, c, d, e], ' ');
    assert [a, b, c, d, e] == [a] + [b, c, d, e];
  }

  lemma BaseWords(table: Table)
    ensures Join(["SELECT", "*", "FROM", TableName(table)], ' ') == "SELECT * FROM " + TableName(table)
  {
    JoinFour("SELECT", "*", "FROM", TableName(table));
  }

  lemma OrderJoin(base: seq<string>, q: string, orderBy: string, asc: bool)
    requires |base| >= 1 && Join(base, ' ') == q
    ensures Join(base + ["ORDER", "BY", orderBy, Direction(asc)], ' ')
         == q + " ORDER BY " + orderBy + " " + Direction(asc)
  {
    JoinAppend(base, ["ORDER", "BY", orderBy, Direction(asc)], ' ');
    JoinFour("ORDER", "BY", orderBy, Direction(asc));
    OrderText(q, orderBy, Direction(asc));
  }

  lemma RangeJoin(base: seq<string>, q: string, limit: string, offset: string)
    requires |base| >= 1 && Join(base, ' ') == q
    ensures Join(base + ["LIMIT", limit, "OFFSET", offset, ""], ' ')
         == q + " LIMIT " + limit + " OFFSET " + offset + " "
  {
    JoinAppend(base, ["LIMIT", limit, "OFFSET", offset, ""], ' ');
    JoinFive("LIMIT", limit, "OFFSET", offset, "");
    RangeText(q, limit, offset);
  }

  lemma OrderText(q: string, o: string, d: string)
    ensures q + " ORDER BY " + o + " " + d == q + " " + ("ORDER" + " " + "BY" + " " + o + " " + d)
  {
    assert " ORDER BY " == " " + "ORDER" + " " + "BY" + " ";
  }

  lemma RangeText(q: string, l: string, o: string)
    ensures q + " LIMIT " + l + " OFFSET " + o + " " == q + " " + ("LIMIT" + " " + l + " " + "OFFSET" + " " + o + " " + "")
  {
    assert " LIMIT " == " " + "LIMIT" + " ";
    assert " OFFSET " == " " + "OFFSET" + " ";
  }

  lemma FormatIntFree(n: int)
    ensures Free(FormatInt(n), ' ')
  {
    var t := FormatInt(n);
    forall i | 0 <= i < |t| ensures t[i] != ' ' {
      assert t[i] == '-' || IsDigit(t[i]);
    }
  }

  /** No word of a well-formed query contains a space. */
  lemma WordsFree(sel: Select)
    requires WellFormed(sel)
    ensures forall i :: 0 <= i < |Words(sel)| ==> Free(Words(sel)[i], ' ')
  {
    if sel.order.Some? {
      var c := sel.order.value.column;
      assert forall j :: 0 <= j < |c| ==> c[j] != ' ' by {
        forall j | 0 <= j < |c| ensures c[j] != ' ' { assert IsIdentChar(c[j]); }
      }
    }
    if sel.range.Some? {
      FormatIntFree(sel.range.value.limit);
      FormatIntFree(sel.range.value.offset);
    }
  }

  lemma ParseRangeRender(range: Option<Range>)
    requires RangeWellFormed(range)
    ensures ParseRange(RangeClause(range)) == Some(range)
  {
    if range.Some? {
      FormatIntRoundTrip(range.value.limit);
      FormatIntRoundTrip(range.value.offset);
    }
  }

  lemma ParseOrderRender(order: Option<Order>, range: Option<Range>)
    requires order.Some? ==> ValidColumn(order.value.column)
    ensures ParseOrder(OrderClause(order) + RangeClause(range)) == (order, RangeClause(range))
  {
    var rest := OrderClause(order) + RangeClause(range);
    if order.Some? {
      assert rest[4..] == RangeClause(range);
    } else {
      assert rest == RangeClause(range);
    }
  }

  lemma ParseWordsRender(sel: Select)
    requires WellFormed(sel)
    ensures ParseWords(Words(sel)) == Some(sel)
  {
    var w := Words(sel);
    assert w[4..] == OrderClause(sel.order) + RangeClause(sel.range);
    ParseOrderRender(sel.order, sel.range);
    ParseRangeRender(sel.range);
  }

  /** The query text carries its clauses: reading a rendered well-formed query gives it back. */
  lemma ParseRender(sel: Select)
    requires WellFormed(sel)
    ensures ParseSelect(Join(Words(sel), ' ')) == Some(sel)
  {
    WordsFree(sel);
    SplitJoin(Words(sel), ' ');
    ParseWordsRender(sel);
  }

  /**
   * For int64 limits and offsets, the text a list call sends reads back as the
   * clauses it asked for: the sort column and direction, and the LIMIT/OFFSET
   * pair only when the limit is non-zero.
   */
  lemma BuildQueryRoundTrip(table: Table, offset: int, limit: int, orderBy: string, asc: bool)
    requires InInt64(offset) && InInt64(limit)
    requires BuildQuery(table, offset, limit, orderBy, asc).Success?
    ensures ParseSelect(BuildQuery(table, offset, limit, orderBy, asc).value)
         == Some(Requested(table, offset, limit, orderBy, asc))
  {
    BuildQueryIsJoinedWords(table, offset, limit, orderBy, asc);
    ParseRender(Requested(table, offset, limit, orderBy, asc));
  }

  // ---------------------------------------------------------------------------
  // The list calls: the driver's answer to a query, and the row loop.

  /** One `rows.Next()` / `rows.StructScan` step of a cursor: a decoded row, or a scan error. */
  datatype Step<T> = Scanned(row: T) | ScanFailed(error: DbError)

  /** What `Queryx` answers: an error, or a cursor over its steps in order. */
  datatype QueryResult<T> = QueryFailed(error: DbError) | Cursor(steps: seq<Step<T>>)

  /**
   * The outcome of draining a cursor: the rows are the scanned rows before the
   * first scan error, in cursor order, and the error is that first scan error
   * (none when every step scanned).
   */
  predicate Collected<T(==)>(steps: seq<Step<T>>, rows: seq<T>, err: Option<DbError>) {
    && |rows| <= |steps|
    && (forall j :: 0 <= j < |rows| ==> steps[j] == Scanned(rows[j]))
    && (err.None? <==> |rows| == |steps|)
    && (err.Some? ==> steps[|rows|] == ScanFailed(err.value))
  }

  /** A cursor has only one outcome: the row loop is deterministic. */
  lemma CollectedUnique<T>(steps: seq<Step<T>>, rows1: seq<T>, err1: Option<DbError>, rows2: seq<T>, err2: Option<DbError>)
    requires Collected(steps, rows1, err1) && Collected(steps, rows2, err2)
    ensures rows1 == rows2 && err1 == err2
  {
    assert |rows1| == |rows2|;
    assert forall j :: 0 <= j < |rows1| ==> Scanned(rows1[j]) == Scanned(rows2[j]);
  }

  /**
   * The `for rows.Next()` loop: appends each scanned row and returns at the
   * first scan error with the rows collected so far.
   */
  method Collect<T(==)>(steps: seq<Step<T>>) returns (rows: seq<T>, err: Option<DbError>)
    ensures Collected(steps, rows, err)
  {
    rows := [];
    var i := 0;
    while i < |steps|
      invariant i == |rows| <= |steps|
      invariant forall j :: 0 <= j < i ==> steps[j] == Scanned(rows[j])
    {
      match steps[i]
      case ScanFailed(e) =>
        return rows, Some(e);
      case Scanned(row) =>
        rows := rows + [row];
      i := i + 1;
    }
    return rows, None;
  }

  /**
   * GetAllProducts / GetAllCategories over a table: an invalid sort column is
   * refused with no rows before any query is sent; a failed query gives no rows
   * and its error; otherwise the cursor is drained by the row loop.
   */
  method GetAll<T(==)>(table: Table, offset: int, limit: int, orderBy: string, asc: bool,
                   query: string -> QueryResult<T>)
    returns (rows: seq<T>, err: Option<DbError>)
    ensures BuildQuery(table, offset, limit, orderBy, asc).Failure? ==> rows == [] && err == Some(SqlInjectionAttempt)
    ensures BuildQuery(table, offset, limit, orderBy, asc).Success? ==>
              var answer := query(BuildQuery(table, offset, limit, orderBy, asc).value);
              && (answer.QueryFailed? ==> rows == [] && err == Some(answer.error))
              && (answer.Cursor? ==> Collected(answer.steps, rows, err))
  {
    var q := BuildQuery(table, offset, limit, orderBy, asc);
    if q.Failure? {
      return [], Some(q.error);
    }
    var answer := query(q.value);
    match answer
    case QueryFailed(e) =>
      rows, err := [], Some(e);
    case Cursor(steps) =>
      rows, err := Collect(steps);
  }

  method GetAllProducts(offset: int, limit: int, orderBy: string, asc: bool, query: string -> QueryResult<Product>)
    returns (products: seq<Product>, err: Option<DbError>)
    ensures |orderBy| > 0 && !ValidColumn(orderBy) ==> products == [] && err == Some(SqlInjectionAttempt)
    ensures BuildQuery(ProductTable, offset, limit, orderBy, asc).Success? ==>
              var answer := query(BuildQuery(ProductTable, offset, limit, orderBy, asc).value);
              && (answer.QueryFailed? ==> products == [] && err == Some(answer.error))
              && (answer.Cursor? ==> Collected(answer.steps, products, err))
  {
    products, err := GetAll(ProductTable, offset, limit, orderBy, asc, query);
  }

  method GetAllCategories(offset: int, limit: int, orderBy: string, asc: bool, query: string -> QueryResult<Category>)
    returns (categories: seq<Category>, err: Option<DbError>)
    ensures |orderBy| > 0 && !ValidColumn(orderBy) ==> categories == [] && err == Some(SqlInjectionAttempt)
    ensures BuildQuery(CategoryTable, offset, limit, orderBy, asc).Success? ==>
              var answer := query(BuildQuery(CategoryTable, offset, limit, orderBy, asc).value);
              && (answer.QueryFailed? ==> categories == [] && err == Some(answer.error))
              && (answer.Cursor? ==> Collected(answer.steps, categories, err))
  {
    categories, err := GetAll(CategoryTable, offset, limit, orderBy, asc, query);
  }

  // ---------------------------------------------------------------------------
  // Point reads and writes: the statements and the values bound to them.

  /** A value bound to a `?` placeholder. */
  datatype SqlValue = Text(text: string) | Integer(number: int) | Real(price: Price) | Timestamp(time: Time)

  /** The value of a product's field for a column, by the record's `db` tags. */
  function ProductColumn(p: Product, column: string): Option<SqlValue> {
    match column
    case "id" => Some(Text(p.id))
    case "category_id" => Some(Integer(p.categoryId))
    case "title" => Some(Text(p.title))
    case "image_url" => Some(Text(p.imageUrl))
    case "price" => Some(Real(p.price))
    case "description" => Some(Text(p.description))
    case "created_at" => Some(Timestamp(p.createdAt))
    case "updated_at" => Some(Timestamp(p.updatedAt))
    case _ => None
  }

  /** The value of a category's field for a column, by the record's `db` tags (`pos` for the position). */
  function CategoryColumn(c: Category, column: string): Option<SqlValue> {
    match column
    case "id" => Some(Integer(c.id))
    case "title" => Some(Text(c.title))
    case "pos" => Some(Integer(c.position))
    case "image_url" => Some(Text(c.imageUrl))
    case "created_at" => Some(Timestamp(c.createdAt))
    case "updated_at" => Some(Timestamp(c.updatedAt))
    case _ => None
  }

  /** The arguments of the product insert. */
  function AddProductArgs(p: Product): (args: seq<SqlValue>)
    ensures |args| == |PRODUCT_INSERT_COLUMNS|
    ensures forall i :: 0 <= i < |args| ==> ProductColumn(p, PRODUCT_INSERT_COLUMNS[i]) == Some(args[i])
  {
    [Text(p.id), Integer(p.categoryId), Text(p.title), Text(p.imageUrl), Real(p.price), Text(p.description)]
  }

  /** The arguments of the product update: the SET columns in order, then the id for WHERE. */
  function UpdateProductArgs(p: Product): (args: seq<SqlValue>)
    ensures |args| == |PRODUCT_UPDATE_COLUMNS| + 1
    ensures forall i :: 0 <= i < |PRODUCT_UPDATE_COLUMNS| ==> ProductColumn(p, PRODUCT_UPDATE_COLUMNS[i]) == Some(args[i])
    ensures args[|args| - 1] == Text(p.id)
  {
    [Integer(p.categoryId), Text(p.title), Text(p.imageUrl), Real(p.price), Text(p.description), Text(p.id)]
  }

  /** The arguments of the category insert; the id is left to the table. */
  function AddCategoryArgs(c: Category): (args: seq<SqlValue>)
    ensures |args| == |CATEGORY_INSERT_COLUMNS|
    ensures forall i :: 0 <= i < |args| ==> CategoryColumn(c, CATEGORY_INSERT_COLUMNS[i]) == Some(args[i])
  {
    [Text(c.title), Integer(c.position), Text(c.imageUrl)]
  }

  /** The arguments of the category update: the SET columns in order, then the id for WHERE. */
  function UpdateCategoryArgs(c: Category): (args: seq<SqlValue>)
    ensures |args| == |CATEGORY_UPDATE_COLUMNS| + 1
    ensures forall i :: 0 <= i < |CATEGORY_UPDATE_COLUMNS| ==> CategoryColumn(c, CATEGORY_UPDATE_COLUMNS[i]) == Some(args[i])
    ensures args[|args| - 1] == Integer(c.id)
  {
    [Text(c.title), Integer(c.position), Text(c.imageUrl), Integer(c.id)]
  }

  /**
   * args fill the placeholders of st one for one: there are as many values as
   * placeholders, and the i-th value is p's field for the i-th bound column.
   */
  predicate BindsProduct(st: Statement, p: Product, args: seq<SqlValue>) {
    Placeholders(Render(st)) == |BoundColumns(st)| == |args|
    && forall i :: 0 <= i < |args| ==> ProductColumn(p, BoundColumns(st)[i]) == Some(args[i])
  }

  predicate BindsCategory(st: Statement, c: Category, args: seq<SqlValue>) {
    Placeholders(Render(st)) == |BoundColumns(st)| == |args|
    && forall i :: 0 <= i < |args| ==> CategoryColumn(c, BoundColumns(st)[i]) == Some(args[i])
  }

  /** The read by id binds its one placeholder to the product id. */
  lemma SelectProductBinds(id: string)
    ensures BindsProduct(SELECT_PRODUCT, ZERO_PRODUCT.(id := id), [Text(id)])
  {
    ProductStatementsNamed();
    PlaceholdersRendered(SELECT_PRODUCT);
  }

  /** The delete binds its one placeholder to the product id. */
  lemma DeleteProductBinds(id: string)
    ensures BindsProduct(DELETE_PRODUCT, ZERO_PRODUCT.(id := id), [Text(id)])
  {
    ProductStatementsNamed();
    PlaceholdersRendered(DELETE_PRODUCT);
  }

  /** The read by id binds its one placeholder to the category id. */
  lemma SelectCategoryBinds(id: int)
    ensures BindsCategory(SELECT_CATEGORY, ZERO_CATEGORY.(id := id), [Integer(id)])
  {
    CategoryStatementsNamed();
    PlaceholdersRendered(SELECT_CATEGORY);
  }

  /** The delete binds its one placeholder to the category id. */
  lemma DeleteCategoryBinds(id: int)
    ensures BindsCategory(DELETE_CATEGORY, ZERO_CATEGORY.(id := id), [Integer(id)])
  {
    CategoryStatementsNamed();
    PlaceholdersRendered(DELETE_CATEGORY);
  }

  lemma UpdateProductBinds(p: Product)
    ensures BindsProduct(UPDATE_PRODUCT, p, UpdateProductArgs(p))
  {
    ProductStatementsNamed();
    PlaceholdersRendered(UPDATE_PRODUCT);
  }

  lemma UpdateCategoryBinds(c: Category)
    ensures BindsCategory(UPDATE_CATEGORY, c, UpdateCategoryArgs(c))
  {
    CategoryStatementsNamed();
    PlaceholdersRendered(UPDATE_CATEGORY);
  }

  /**
   * A single-row read: `QueryRowx(stmt, args).StructScan`. The oracle stands for
   * the driver and the scan.
   */
  type RowReader<T> = (string, seq<SqlValue>) -> Result<T, DbError>
  /** An `Exec(stmt, args)`: the oracle answers with the driver's error, if any. */
  type Executor = (string, seq<SqlValue>) -> Option<DbError>

  /** GetProduct: the row read by id (SelectProductBinds), or the zero product on any error. */
  function GetProduct(id: string, queryRow: RowReader<Product>): (r: (Product, Option<DbError>))
    ensures r.1.None? <==> queryRow(Render(SELECT_PRODUCT), [Text(id)]).Success?
    ensures r.1.Some? ==> r.0 == ZERO_PRODUCT && r.1.value == queryRow(Render(SELECT_PRODUCT), [Text(id)]).error
    ensures r.1.None? ==> r.0 == queryRow(Render(SELECT_PRODUCT), [Text(id)]).value
  {
    var answer := queryRow(Render(SELECT_PRODUCT), [Text(id)]);
    if answer.Failure? then (ZERO_PRODUCT, Some(answer.error)) else (answer.value, None)
  }

  /** GetCategory: the row read by id (SelectCategoryBinds), or the zero category on any error. */
  function GetCategory(id: int, queryRow: RowReader<Category>): (r: (Category, Option<DbError>))
    ensures r.1.None? <==> queryRow(Render(SELECT_CATEGORY), [Integer(id)]).Success?
    ensures r.1.Some? ==> r.0 == ZERO_CATEGORY && r.1.value == queryRow(Render(SELECT_CATEGORY), [Integer(id)]).error
    ensures r.1.None? ==> r.0 == queryRow(Render(SELECT_CATEGORY), [Integer(id)]).value
  {
    var answer := queryRow(Render(SELECT_CATEGORY), [Integer(id)]);
    if answer.Failure? then (ZERO_CATEGORY, Some(answer.error)) else (answer.value, None)
  }

  /**
   * AddProduct: the product is inserted under a fresh 36-character UUID that
   * replaces whatever id it carried; the new id is returned, or "" on failure.
   */
  function AddProduct(product: Product, freshId: string, exec: Executor): (r: (string, Option<DbError>))
    requires |freshId| == 36
    ensures BindsProduct(INSERT_PRODUCT, product.(id := freshId), AddProductArgs(product.(id := freshId)))
    ensures r.1 == exec(Render(INSERT_PRODUCT), AddProductArgs(product.(id := freshId)))
    ensures r.1.None? ==> r.0 == freshId
    ensures r.1.Some? ==> r.0 == ""
  {
    ProductStatementsNamed();
    PlaceholdersRendered(INSERT_PRODUCT);
    var p := product.(id := freshId);
    match exec(Render(INSERT_PRODUCT), AddProductArgs(p))
    case Some(e) => ("", Some(e))
    case None => (freshId, None)
  }

  /** UpdateProduct: the update's placeholders take the SET fields in order and then the id. */
  function UpdateProduct(product: Product, exec: Executor): (err: Option<DbError>)
    ensures BindsProduct(UPDATE_PRODUCT, product, UpdateProductArgs(product))
    ensures err == exec(Render(UPDATE_PRODUCT), UpdateProductArgs(product))
  {
    UpdateProductBinds(product);
    exec(Render(UPDATE_PRODUCT), UpdateProductArgs(product))
  }

  /** DeleteProduct: the delete's one placeholder takes the id. */
  function DeleteProduct(id: string, exec: Executor): (err: Option<DbError>)
    ensures BindsProduct(DELETE_PRODUCT, ZERO_PRODUCT.(id := id), [Text(id)])
    ensures err == exec(Render(DELETE_PRODUCT), [Text(id)])
  {
    DeleteProductBinds(id);
    exec(Render(DELETE_PRODUCT), [Text(id)])
  }

  /** AddCategory: the insert's placeholders take title, pos and image_url; the id is left to the table. */
  function AddCategory(category: Category, exec: Executor): (err: Option<DbError>)
    ensures BindsCategory(INSERT_CATEGORY, category, AddCategoryArgs(category))
    ensures err == exec(Render(INSERT_CATEGORY), AddCategoryArgs(category))
  {
    CategoryStatementsNamed();
    PlaceholdersRendered(INSERT_CATEGORY);
    exec(Render(INSERT_CATEGORY), AddCategoryArgs(category))
  }

  /** UpdateCategory: the update's placeholders take the SET fields in order and then the id. */
  function UpdateCategory(category: Category, exec: Executor): (err: Option<DbError>)
    ensures BindsCategory(UPDATE_CATEGORY, category, UpdateCategoryArgs(category))
    ensures err == exec(Render(UPDATE_CATEGORY), UpdateCategoryArgs(category))
  {
    UpdateCategoryBinds(category);
    exec(Render(UPDATE_CATEGORY), UpdateCategoryArgs(category))
  }

  /** DeleteCategory: the delete's one placeholder takes the id. */
  function DeleteCategory(id: int, exec: Executor): (err: Option<DbError>)
    ensures BindsCategory(DELETE_CATEGORY, ZERO_CATEGORY.(id := id), [Integer(id)])
    ensures err == exec(Render(DELETE_CATEGORY), [Integer(id)])
  {
    DeleteCategoryBinds(id);
    exec(Render(DELETE_CATEGORY), [Integer(id)])
  }
}
