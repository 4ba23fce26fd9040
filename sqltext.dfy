/**
 * The text of the statements the data access layer sends (pkg/services/mysql.go):
 * the identifier whitelist, and the point statements with their `?`
 * placeholders, one per bound column.
 */
module SqlText {
  import opened Strings

  predicate IsIdentChar(c: char) {
    'A' <= c <= 'Z' || 'a' <= c <= 'z' || '0' <= c <= '9' || c == '_'
  }

  /** The whitelist `^[A-Za-z0-9_]+$`: one or more letters, digits or underscores, nothing else. */
  predicate ValidColumn(s: string) {
    |s| > 0 && forall i :: 0 <= i < |s| ==> IsIdentChar(s[i])
  }

  /**
   * The shape of a point statement. Each `?` placeholder in its text stands for
   * one column; BoundColumns lists them in the order the placeholders appear.
   */
  datatype Statement =
    | SelectById(table: string)
    | Insert(table: string, columns: seq<string>)
    | Update(table: string, columns: seq<string>)
    | DeleteById(table: string)

  /** `c1, c2, …`: the column list of an insert. */
  function ColumnList(columns: seq<string>): string {
    if columns == [] then ""
    else if |columns| == 1 then columns[0]
    else columns[0] + ", " + ColumnList(columns[1..])
  }

  /** `?,?,…`: n placeholders separated by commas. */
  function Marks(n: nat): string {
    if n == 0 then "" else if n == 1 then "?" else "?," + Marks(n - 1)
  }

  /** `c1=?, c2=?, …, `: one assignment per column of an update. */
  function Assignments(columns: seq<string>): string {
    if columns == [] then "" else columns[0] + "=?, " + Assignments(columns[1..])
  }

  /** The statement text handed to the driver. */
  function Render(st: Statement): string {
    match st
    case SelectById(t) => "SELECT * FROM " + t + " WHERE id=" + "?"
    case Insert(t, cs) => "INSERT INTO " + t + " (" + ColumnList(cs) + ") VALUES (" + Marks(|cs|) + ");"
    case Update(t, cs) => "UPDATE " + t + " SET " + Assignments(cs) + "updated_at=NOW() WHERE id=" + "?"
    case DeleteById(t) => "DELETE FROM " + t + " WHERE id=" + "?"
  }

  /** The column each placeholder of the text stands for, in order; reads, deletes and updates end with `WHERE id=?`. */
  function BoundColumns(st: Statement): seq<string> {
    match st
    case Insert(_, cs) => cs
    case Update(_, cs) => cs + ["id"]
    case _ => ["id"]
  }

  /** The table and every column the statement names pass the identifier whitelist. */
  predicate Named(st: Statement) {
    ValidColumn(st.table)
    && (st.Insert? || st.Update? ==> forall i :: 0 <= i < |st.columns| ==> ValidColumn(st.columns[i]))
  }

  /** The number of `?` placeholders in a text. */
  function Placeholders(s: string): nat {
    if s == [] then 0 else (if s[0] == '?' then 1 else 0) + Placeholders(s[1..])
  }

  lemma {:induction false} PlaceholdersAppend(a: string, b: string)
    ensures Placeholders(a + b) == Placeholders(a) + Placeholders(b)
  {
    if a == [] {
      assert a + b == b;
    } else {
      assert (a + b)[1..] == a[1..] + b;
      PlaceholdersAppend(a[1..], b);
    }
  }

  lemma {:induction false} NoPlaceholders(s: string)
    requires Free(s, '?')
    ensures Placeholders(s) == 0
  {
    if s != [] {
      NoPlaceholders(s[1..]);
    }
  }

  lemma NamePlaceholders(s: string)
    requires ValidColumn(s)
    ensures Placeholders(s) == 0
  {
    NoPlaceholders(s);
  }

  lemma {:induction false} ColumnListPlaceholders(columns: seq<string>)
    requires forall i :: 0 <= i < |columns| ==> ValidColumn(columns[i])
    ensures Placeholders(ColumnList(columns)) == 0
  {
    if |columns| == 1 {
      NamePlaceholders(columns[0]);
    } else if |columns| > 1 {
      ColumnListPlaceholders(columns[1..]);
      NamePlaceholders(columns[0]);
      PlaceholdersAppend(columns[0], ", ");
      PlaceholdersAppend(columns[0] + ", ", ColumnList(columns[1..]));
    }
  }

  lemma {:induction false} MarksPlaceholders(n: nat)
    ensures Placeholders(Marks(n)) == n
  {
    if n > 1 {
      MarksPlaceholders(n - 1);
      PlaceholdersAppend("?,", Marks(n - 1));
    }
  }

  lemma {:induction false} AssignmentsPlaceholders(columns: seq<string>)
    requires forall i :: 0 <= i < |columns| ==> ValidColumn(columns[i])
    ensures Placeholders(Assignments(columns)) == |columns|
  {
    if columns != [] {
      AssignmentsPlaceholders(columns[1..]);
      NamePlaceholders(columns[0]);
      PlaceholdersAppend(columns[0], "=?, ");
      PlaceholdersAppend(columns[0] + "=?, ", Assignments(columns[1..]));
    }
  }

  /** The fixed parts of the statement texts hold no placeholder, all but the final `?` of the by-id and update texts. */
  lemma SelectHead() ensures Placeholders("SELECT * FROM ") == 0 { NoPlaceholders("SELECT * FROM "); }
  lemma DeleteHead() ensures Placeholders("DELETE FROM ") == 0 { NoPlaceholders("DELETE FROM "); }
  lemma WhereId() ensures Placeholders(" WHERE id=") == 0 { NoPlaceholders(" WHERE id="); }
  lemma Mark() ensures Placeholders("?") == 1 { assert "?"[1..] == []; }

  lemma PlaceholdersFour(a: string, b: string, c: string, d: string)
    ensures Placeholders(a + b + c + d) == Placeholders(a) + Placeholders(b) + Placeholders(c) + Placeholders(d)
  {
    PlaceholdersAppend(a, b);
    PlaceholdersAppend(a + b, c);
    PlaceholdersAppend(a + b + c, d);
  }

  lemma SelectPlaceholders(t: string)
    requires ValidColumn(t)
    ensures Placeholders(Render(SelectById(t))) == 1
  {
    NamePlaceholders(t);
    SelectHead();
    WhereId();
    Mark();
    PlaceholdersFour("SELECT * FROM ", t, " WHERE id=", "?");
  }

  lemma DeletePlaceholders(t: string)
    requires ValidColumn(t)
    ensures Placeholders(Render(DeleteById(t))) == 1
  {
    NamePlaceholders(t);
    DeleteHead();
    WhereId();
    Mark();
    PlaceholdersFour("DELETE FROM ", t, " WHERE id=", "?");
  }

  lemma PlaceholdersSix(a: string, b: string, c: string, d: string, e: string, f: string)
    ensures Placeholders(a + b + c + d + e + f)
         == Placeholders(a) + Placeholders(b) + Placeholders(c) + Placeholders(d) + Placeholders(e) + Placeholders(f)
  {
    PlaceholdersFive(a, b, c, d, e);
    PlaceholdersAppend(a + b + c + d + e, f);
  }

  lemma PlaceholdersFive(a: string, b: string, c: string, d: string, e: string)
    ensures Placeholders(a + b + c + d + e) == Placeholders(a) + Placeholders(b) + Placeholders(c) + Placeholders(d) + Placeholders(e)
  {
    PlaceholdersAppend(a, b);
    PlaceholdersAppend(a + b, c);
    PlaceholdersAppend(a + b + c, d);
    PlaceholdersAppend(a + b + c + d, e);
  }

  lemma InsertHead() ensures Placeholders("INSERT INTO ") == 0 { NoPlaceholders("INSERT INTO "); }
  lemma OpenColumns() ensures Placeholders(" (") == 0 { NoPlaceholders(" ("); }
  lemma OpenValues() ensures Placeholders(") VALUES (") == 0 { NoPlaceholders(") VALUES ("); }
  lemma CloseValues() ensures Placeholders(");") == 0 { NoPlaceholders(");"); }
  lemma UpdateHead() ensures Placeholders("UPDATE ") == 0 { NoPlaceholders("UPDATE "); }
  lemma SetWord() ensures Placeholders(" SET ") == 0 { NoPlaceholders(" SET "); }
  lemma UpdateTail() ensures Placeholders("updated_at=NOW() WHERE id=") == 0 { NoPlaceholders("updated_at=NOW() WHERE id="); }

  lemma InsertPlaceholders(t: string, cs: seq<string>)
    requires ValidColumn(t) && forall i :: 0 <= i < |cs| ==> ValidColumn(cs[i])
    ensures Placeholders(Render(Insert(t, cs))) == |cs|
  {
    NamePlaceholders(t);
    ColumnListPlaceholders(cs);
    MarksPlaceholders(|cs|);
    InsertHead();
    OpenColumns();
    OpenValues();
    CloseValues();
    var head := "INSERT INTO " + t;
    PlaceholdersAppend("INSERT INTO ", t);
    PlaceholdersFive(head, " (", ColumnList(cs), ") VALUES (", Marks(|cs|));
    PlaceholdersAppend(head + " (" + ColumnList(cs) + ") VALUES (" + Marks(|cs|), ");");
  }

  lemma UpdatePlaceholders(t: string, cs: seq<string>)
    requires ValidColumn(t) && forall i :: 0 <= i < |cs| ==> ValidColumn(cs[i])
    ensures Placeholders(Render(Update(t, cs))) == |cs| + 1
  {
    NamePlaceholders(t);
    AssignmentsPlaceholders(cs);
    UpdateHead();
    SetWord();
    UpdateTail();
    Mark();
    PlaceholdersSix("UPDATE ", t, " SET ", Assignments(cs), "updated_at=NOW() WHERE id=", "?");
  }

  /** A statement over whitelisted names has exactly one placeholder per bound column. */
  lemma PlaceholdersRendered(st: Statement)
    requires Named(st)
    ensures Placeholders(Render(st)) == |BoundColumns(st)|
  {
    match st
    case SelectById(t) => SelectPlaceholders(t);
    case DeleteById(t) => DeletePlaceholders(t);
    case Insert(t, cs) => InsertPlaceholders(t, cs);
    case Update(t, cs) => UpdatePlaceholders(t, cs);
  }

  /** The text before the closing ` WHERE id=?` of a read, update or delete by id. */
  function WhereHead(st: Statement): string
    requires !st.Insert?
  {
    match st
    case SelectById(t) => "SELECT * FROM " + t
    case Update(t, cs) => "UPDATE " + t + " SET " + Assignments(cs) + "updated_at=NOW()"
    case DeleteById(t) => "DELETE FROM " + t
  }

  lemma UpdatedAtMark()
    ensures "updated_at=NOW() WHERE id=" + "?" == "updated_at=NOW() WHERE id=?"
  {
  }

  lemma UpdatedAtWhere()
    ensures "updated_at=NOW()" + " WHERE id=?" == "updated_at=NOW() WHERE id=?"
  {
  }

  lemma UpdatedAt() ensures Placeholders("updated_at=NOW()") == 0 { NoPlaceholders("updated_at=NOW()"); }

  lemma WhereIdMark()
    ensures " WHERE id=" + "?" == " WHERE id=?"
  {
  }

  lemma SelectWhereIdLast(t: string)
    requires ValidColumn(t)
    ensures Render(SelectById(t)) == "SELECT * FROM " + t + " WHERE id=?"
    ensures Placeholders("SELECT * FROM " + t) == 0
  {
    WhereIdMark();
    NamePlaceholders(t);
    SelectHead();
    PlaceholdersAppend("SELECT * FROM ", t);
    Assoc("SELECT * FROM " + t, " WHERE id=", "?");
  }

  lemma DeleteWhereIdLast(t: string)
    requires ValidColumn(t)
    ensures Render(DeleteById(t)) == "DELETE FROM " + t + " WHERE id=?"
    ensures Placeholders("DELETE FROM " + t) == 0
  {
    WhereIdMark();
    NamePlaceholders(t);
    DeleteHead();
    PlaceholdersAppend("DELETE FROM ", t);
    Assoc("DELETE FROM " + t, " WHERE id=", "?");
  }

  lemma UpdateWhereIdLast(t: string, cs: seq<string>)
    requires ValidColumn(t) && forall i :: 0 <= i < |cs| ==> ValidColumn(cs[i])
    ensures Render(Update(t, cs)) == "UPDATE " + t + " SET " + Assignments(cs) + "updated_at=NOW()" + " WHERE id=?"
    ensures Placeholders("UPDATE " + t + " SET " + Assignments(cs) + "updated_at=NOW()") == |cs|
  {
    var head := "UPDATE " + t + " SET " + Assignments(cs);
    NamePlaceholders(t);
    AssignmentsPlaceholders(cs);
    UpdateHead();
    SetWord();
    UpdatedAtMark();
    UpdatedAtWhere();
    UpdatedAt();
    PlaceholdersFive("UPDATE ", t, " SET ", Assignments(cs), "updated_at=NOW()");
    Assoc(head, "updated_at=NOW() WHERE id=", "?");
    Assoc(head, "updated_at=NOW()", " WHERE id=?");
  }

  /**
   * A read, update or delete by id ends in ` WHERE id=?`, and every other
   * placeholder lies before it: the text's last placeholder is the one of the
   * WHERE clause, and the last bound column is `id`.
   */
  lemma WhereIdLast(st: Statement)
    requires Named(st) && !st.Insert?
    ensures Render(st) == WhereHead(st) + " WHERE id=?"
    ensures Placeholders(WhereHead(st)) == |BoundColumns(st)| - 1
    ensures BoundColumns(st)[|BoundColumns(st)| - 1] == "id"
  {
    match st
    case SelectById(t) => SelectWhereIdLast(t);
    case DeleteById(t) => DeleteWhereIdLast(t);
    case Update(t, cs) => UpdateWhereIdLast(t, cs);
  }

  // ---------------------------------------------------------------------------
  // The eight point statements of pkg/services/mysql.go.

  const SELECT_PRODUCT := SelectById("product")
  const INSERT_PRODUCT := Insert("product", PRODUCT_INSERT_COLUMNS)
  const UPDATE_PRODUCT := Update("product", PRODUCT_UPDATE_COLUMNS)
  const DELETE_PRODUCT := DeleteById("product")
  const SELECT_CATEGORY := SelectById("category")
  const INSERT_CATEGORY := Insert("category", CATEGORY_INSERT_COLUMNS)
  const UPDATE_CATEGORY := Update("category", CATEGORY_UPDATE_COLUMNS)
  const DELETE_CATEGORY := DeleteById("category")

  /** The columns named by the write statements, in the order they are written there. */
  const PRODUCT_INSERT_COLUMNS := ["id", "category_id", "title", "image_url", "price", "description"]
  const PRODUCT_UPDATE_COLUMNS := ["category_id", "title", "image_url", "price", "description"]
  const CATEGORY_INSERT_COLUMNS := ["title", "pos", "image_url"]
  const CATEGORY_UPDATE_COLUMNS := ["title", "pos", "image_url"]

  /** The product statements name only whitelisted identifiers. */
  lemma ProductStatementsNamed()
    ensures Named(SELECT_PRODUCT) && Named(INSERT_PRODUCT) && Named(UPDATE_PRODUCT) && Named(DELETE_PRODUCT)
  {
    assert ValidColumn("product") && ValidColumn("id") && ValidColumn("category_id");
    assert ValidColumn("title") && ValidColumn("image_url") && ValidColumn("price") && ValidColumn("description");
  }

  /** The category statements name only whitelisted identifiers. */
  lemma CategoryStatementsNamed()
    ensures Named(SELECT_CATEGORY) && Named(INSERT_CATEGORY) && Named(UPDATE_CATEGORY) && Named(DELETE_CATEGORY)
  {
    assert ValidColumn("category") && ValidColumn("title") && ValidColumn("pos") && ValidColumn("image_url");
  }

  // ---------------------------------------------------------------------------
  // The rendered texts are the literals of pkg/services/mysql.go. The solver
  // cannot compare literals much longer than forty characters in one step, so
  // the longer texts are stated as pieces of the literal joined by `+`.

  lemma ColumnListCons(c: string, rest: seq<string>)
    requires rest != []
    ensures ColumnList([c] + rest) == c + ", " + ColumnList(rest)
  {
    assert ([c] + rest)[1..] == rest;
  }

  lemma AssignmentsCons(c: string, rest: seq<string>)
    ensures Assignments([c] + rest) == c + "=?, " + Assignments(rest)
  {
    assert ([c] + rest)[1..] == rest;
  }

  lemma Assoc(a: string, b: string, c: string)
    ensures a + (b + c) == a + b + c
  {
  }

  /** The shape of an insert text: a head ending in ` (`, the column list, and the values part. */
  lemma InsertShape(h: string, t: string, o: string, cl: string, v: string, m: string, e: string, head: string, values: string)
    requires h + t + o == head && v + m + e == values
    ensures h + t + o + cl + v + m + e == head + cl + values
  {
    Assoc(head + cl, v + m, e);
    Assoc(head + cl, v, m);
  }

  /** The shape of an update text: a head ending in `SET `, the assignments, and the `WHERE id=?` tail. */
  lemma UpdateShape(h: string, t: string, o: string, a: string, w: string, q: string, head: string, tail: string)
    requires h + t + o == head && w + q == tail
    ensures h + t + o + a + w + q == head + a + tail
  {
    Assoc(head + a, w, q);
  }

  lemma ProductColumnsTwo()
    ensures ColumnList(["price", "description"]) == "price, description"
  {
    ColumnListCons("price", ["description"]);
    assert ["price"] + ["description"] == ["price", "description"];
  }

  lemma ProductColumnsThree()
    ensures ColumnList(["image_url", "price", "description"]) == "image_url, price, description"
  {
    ProductColumnsTwo();
    ColumnListCons("image_url", ["price", "description"]);
    assert ["image_url"] + ["price", "description"] == ["image_url", "price", "description"];
  }

  lemma ProductColumnsFour()
    ensures ColumnList(["title", "image_url", "price", "description"]) == "title, " + "image_url, price, description"
  {
    ProductColumnsThree();
    ColumnListCons("title", ["image_url", "price", "description"]);
    assert ["title"] + ["image_url", "price", "description"] == ["title", "image_url", "price", "description"];
    assert "title" + ", " == "title, ";
  }

  lemma ProductColumnsFive()
    ensures ColumnList(["category_id", "title", "image_url", "price", "description"])
         == "category_id, title, " + "image_url, price, description"
  {
    ProductColumnsFour();
    ColumnListCons("category_id", ["title", "image_url", "price", "description"]);
    assert ["category_id"] + ["title", "image_url", "price", "description"] == ["category_id", "title", "image_url", "price", "description"];
    Assoc("category_id" + ", ", "title, ", "image_url, price, description");
    assert "category_id" + ", " + "title, " == "category_id, title, ";
  }

  lemma ProductInsertColumns()
    ensures ColumnList(PRODUCT_INSERT_COLUMNS) == "id, category_id, title, " + "image_url, price, description"
  {
    ProductColumnsFive();
    ColumnListCons("id", ["category_id", "title", "image_url", "price", "description"]);
    assert ["id"] + ["category_id", "title", "image_url", "price", "description"] == PRODUCT_INSERT_COLUMNS;
    Assoc("id" + ", ", "category_id, title, ", "image_url, price, description");
    assert "id" + ", " + "category_id, title, " == "id, category_id, title, ";
  }

  lemma ProductAssignmentsTwo()
    ensures Assignments(["price", "description"]) == "price=?, description=?, "
  {
    AssignmentsCons("description", []);
    assert ["description"] + [] == ["description"];
    AssignmentsCons("price", ["description"]);
    assert ["price"] + ["description"] == ["price", "description"];
  }

  lemma ProductAssignmentsThree()
    ensures Assignments(["image_url", "price", "description"]) == "image_url=?, " + "price=?, description=?, "
  {
    ProductAssignmentsTwo();
    AssignmentsCons("image_url", ["price", "description"]);
    assert ["image_url"] + ["price", "description"] == ["image_url", "price", "description"];
  }

  lemma ProductAssignmentsFour()
    ensures Assignments(["title", "image_url", "price", "description"]) == "title=?, image_url=?, " + "price=?, description=?, "
  {
    ProductAssignmentsThree();
    AssignmentsCons("title", ["image_url", "price", "description"]);
    assert ["title"] + ["image_url", "price", "description"] == ["title", "image_url", "price", "description"];
    Assoc("title" + "=?, ", "image_url=?, ", "price=?, description=?, ");
    assert "title" + "=?, " + "image_url=?, " == "title=?, image_url=?, ";
  }

  lemma ProductUpdateAssignments()
    ensures Assignments(PRODUCT_UPDATE_COLUMNS) == "category_id=?, title=?, image_url=?, " + "price=?, description=?, "
  {
    ProductAssignmentsFour();
    AssignmentsCons("category_id", ["title", "image_url", "price", "description"]);
    assert ["category_id"] + ["title", "image_url", "price", "description"] == PRODUCT_UPDATE_COLUMNS;
    Assoc("category_id" + "=?, ", "title=?, image_url=?, ", "price=?, description=?, ");
    assert "category_id" + "=?, " + "title=?, image_url=?, " == "category_id=?, title=?, image_url=?, ";
  }

  lemma CategoryInsertColumns()
    ensures ColumnList(CATEGORY_INSERT_COLUMNS) == "title, pos, image_url"
  {
    assert CATEGORY_INSERT_COLUMNS[1..] == ["pos", "image_url"];
    assert CATEGORY_INSERT_COLUMNS[1..][1..] == ["image_url"];
  }

  lemma CategoryUpdateAssignments()
    ensures Assignments(CATEGORY_UPDATE_COLUMNS) == "title=?, pos=?, image_url=?, "
  {
    assert CATEGORY_UPDATE_COLUMNS[1..] == ["pos", "image_url"];
    assert CATEGORY_UPDATE_COLUMNS[1..][1..] == ["image_url"];
    assert CATEGORY_UPDATE_COLUMNS[1..][1..][1..] == [];
  }

  lemma SelectProductText()
    ensures Render(SELECT_PRODUCT) == "SELECT * FROM product WHERE id=?"
  {
  }

  lemma DeleteProductText()
    ensures Render(DELETE_PRODUCT) == "DELETE FROM product WHERE id=?"
  {
  }

  lemma SelectCategoryText()
    ensures Render(SELECT_CATEGORY) == "SELECT * FROM category WHERE id=?"
  {
  }

  lemma DeleteCategoryText()
    ensures Render(DELETE_CATEGORY) == "DELETE FROM category WHERE id=?"
  {
  }

  lemma InsertProductText()
    ensures Render(INSERT_PRODUCT)
         == "INSERT INTO product (" + "id, category_id, title, " + "image_url, price, description" + ") VALUES (?,?,?,?,?,?);"
  {
    ProductInsertColumns();
    assert Marks(6) == "?,?,?,?,?,?";
    assert "INSERT INTO " + "product" + " (" == "INSERT INTO product (";
    assert ") VALUES (" + "?,?,?,?,?,?" + ");" == ") VALUES (?,?,?,?,?,?);";
    InsertShape("INSERT INTO ", "product", " (", ColumnList(PRODUCT_INSERT_COLUMNS), ") VALUES (", "?,?,?,?,?,?", ");",
                "INSERT INTO product (", ") VALUES (?,?,?,?,?,?);");
    Assoc("INSERT INTO product (", "id, category_id, title, ", "image_url, price, description");
  }

  lemma UpdateProductText()
    ensures Render(UPDATE_PRODUCT)
         == "UPDATE product SET " + "category_id=?, title=?, image_url=?, " + "price=?, description=?, " + "updated_at=NOW() WHERE id=?"
  {
    ProductUpdateAssignments();
    assert "UPDATE " + "product" + " SET " == "UPDATE product SET ";
    assert "updated_at=NOW() WHERE id=" + "?" == "updated_at=NOW() WHERE id=?";
    UpdateShape("UPDATE ", "product", " SET ", Assignments(PRODUCT_UPDATE_COLUMNS), "updated_at=NOW() WHERE id=", "?",
                "UPDATE product SET ", "updated_at=NOW() WHERE id=?");
    Assoc("UPDATE product SET ", "category_id=?, title=?, image_url=?, ", "price=?, description=?, ");
  }

  lemma InsertCategoryText()
    ensures Render(INSERT_CATEGORY) == "INSERT INTO category (" + "title, pos, image_url" + ") VALUES (?,?,?);"
  {
    CategoryInsertColumns();
    assert Marks(3) == "?,?,?";
    assert "INSERT INTO " + "category" + " (" == "INSERT INTO category (";
    assert ") VALUES (" + "?,?,?" + ");" == ") VALUES (?,?,?);";
    InsertShape("INSERT INTO ", "category", " (", ColumnList(CATEGORY_INSERT_COLUMNS), ") VALUES (", "?,?,?", ");",
                "INSERT INTO category (", ") VALUES (?,?,?);");
  }

  lemma UpdateCategoryText()
    ensures Render(UPDATE_CATEGORY) == "UPDATE category SET " + "title=?, pos=?, image_url=?, " + "updated_at=NOW() WHERE id=?"
  {
    CategoryUpdateAssignments();
    assert "UPDATE " + "category" + " SET " == "UPDATE category SET ";
    assert "updated_at=NOW() WHERE id=" + "?" == "updated_at=NOW() WHERE id=?";
    UpdateShape("UPDATE ", "category", " SET ", Assignments(CATEGORY_UPDATE_COLUMNS), "updated_at=NOW() WHERE id=", "?",
                "UPDATE category SET ", "updated_at=NOW() WHERE id=?");
  }
}
