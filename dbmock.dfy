/**
 * The in-memory store (pkg/services/dbservicemock.go): a slice of products and a
 * slice of categories, searched linearly by id. Its deletes are written over
 * Go's in-place `append`: the element after the match and every later one move
 * one place left inside the same backing array, the removal's result is thrown
 * away, and the store's own slice keeps its old length, so its last element
 * appears twice.
 */
module DbMock {
  import opened Wrappers
  import opened GoInt
  import opened Strconv
  import opened Model

  /** The index of the first occurrence of key, or |keys| when there is none. */
  function IndexOf<K(==)>(keys: seq<K>, key: K): (k: nat)
    ensures k <= |keys|
    ensures k < |keys| ==> keys[k] == key
    ensures forall j :: 0 <= j < k ==> keys[j] != key
  {
    if keys == [] then 0
    else if keys[0] == key then 0
    else 1 + IndexOf(keys[1..], key)
  }

  /** The keys of a slice, in slice order. */
  function Ids<T, K>(s: seq<T>, key: T -> K): (ids: seq<K>)
    ensures |ids| == |s|
    ensures forall j :: 0 <= j < |s| ==> ids[j] == key(s[j])
  {
    seq(|s|, j requires 0 <= j < |s| => key(s[j]))
  }

  function ProductId(p: Product): string {
    p.id
  }

  function CategoryId(c: Category): int {
    c.id
  }

  /** What `removeProdFromSlice` / `removeCatFromSlice` return: the slice without its k-th element. */
  function Remove<T>(s: seq<T>, k: nat): (r: seq<T>)
    requires k < |s|
    ensures |r| == |s| - 1
    ensures forall j :: 0 <= j < k ==> r[j] == s[j]
    ensures forall j :: k <= j < |r| ==> r[j] == s[j + 1]
  {
    s[..k] + s[k + 1..]
  }

  /**
   * What the caller's slice shows after that removal: `append(s[:k], s[k+1:]...)`
   * writes the shifted tail into the same backing array, and the caller's slice,
   * still of the old length, ends with its old last element.
   */
  function ShiftLeft<T>(s: seq<T>, k: nat): (r: seq<T>)
    requires k < |s|
    ensures |r| == |s|
    ensures forall j :: 0 <= j < k ==> r[j] == s[j]
    ensures forall j :: k <= j < |s| - 1 ==> r[j] == s[j + 1]
    ensures r[|s| - 1] == s[|s| - 1]
  {
    Remove(s, k) + [s[|s| - 1]]
  }

  /** The removal's result is the caller's slice without its last element. */
  lemma ShiftLeftExtendsRemove<T>(s: seq<T>, k: nat)
    requires k < |s|
    ensures ShiftLeft(s, k)[..|s| - 1] == Remove(s, k)
  {
  }

  /** Deleting the last element leaves the caller's slice exactly as it was. */
  lemma ShiftLeftLast<T>(s: seq<T>)
    requires |s| > 0
    ensures ShiftLeft(s, |s| - 1) == s
  {
    assert Remove(s, |s| - 1) == s[..|s| - 1];
  }

  /** After a delete at k the element that was at k is gone, unless it also occurs later. */
  lemma ShiftLeftDropsMatch<K>(keys: seq<K>, k: nat)
    requires k < |keys| - 1
    requires forall j :: k < j < |keys| ==> keys[j] != keys[k]
    ensures forall j :: k <= j < |keys| ==> ShiftLeft(keys, k)[j] != keys[k]
  {
  }

  // ---------------------------------------------------------------------------
  // Generated data

  const POSSIBLE_CATEGORIES := ["sports", "house", "garden", "electronics", "games", "food", "drinks", "furniture",
    "space", "mobile", "movies", "tv", "pc", "books", "groceries", "devices", "music", "instruments"]

  /** The i-th generated category; both timestamps are the clock reading `now`. */
  function GeneratedCategory(i: nat, now: Time): (c: Category)
    requires i < |POSSIBLE_CATEGORIES|
    ensures c.id == i && c.position == i && c.title == POSSIBLE_CATEGORIES[i]
    ensures c.createdAt == now && c.updatedAt == now
  {
    Category(i, POSSIBLE_CATEGORIES[i], i, "http://www.bestprice.gr/cat" + FormatInt(i) + ".png", now, now)
  }

  /** generateCategories: one category per name, at the index that is also its id and its position. */
  method GenerateCategories(now: Time) returns (categories: seq<Category>)
    ensures |categories| == |POSSIBLE_CATEGORIES| == 18
    ensures forall i :: 0 <= i < |categories| ==> categories[i] == GeneratedCategory(i, now)
    ensures forall i :: 0 <= i < |categories| ==>
              categories[i].id == categories[i].position == i && categories[i].title == POSSIBLE_CATEGORIES[i]
  {
    categories := [];
    var i := 0;
    while i < |POSSIBLE_CATEGORIES|
      invariant 0 <= i <= |POSSIBLE_CATEGORIES|
      invariant |categories| == i
      invariant forall j :: 0 <= j < i ==> categories[j] == GeneratedCategory(j, now)
    {
      categories := categories + [GeneratedCategory(i, now)];
      i := i + 1;
    }
  }

  /**
   * The random parts of one generated product: the UUID, the `rand.Intn(18)`
   * category draw and the price.
   */
  datatype ProductDraw = ProductDraw(id: string, categoryDraw: int, price: Price)

  predicate DrawOk(d: ProductDraw) {
    0 <= d.categoryDraw < |POSSIBLE_CATEGORIES|
  }

  /** generateProduct(i): the category id is the draw plus one. */
  function GeneratedProduct(i: nat, d: ProductDraw, now: Time): (p: Product)
    ensures p.id == d.id && p.price == d.price
    ensures DrawOk(d) ==> 1 <= p.categoryId <= |POSSIBLE_CATEGORIES|
    ensures p.createdAt == now && p.updatedAt == now
  {
    Product(d.id, d.categoryDraw + 1, "product" + FormatInt(i),
            "http://www.bestprice.gr/product" + FormatInt(i) + ".png", d.price,
            "Description product " + FormatInt(i), now, now)
  }

  const GENERATED_PRODUCTS := 200

  /** generateProducts: 200 products, the i-th built from the i-th draw. */
  method GenerateProducts(draws: seq<ProductDraw>, now: Time) returns (products: seq<Product>)
    requires |draws| == GENERATED_PRODUCTS
    requires forall i :: 0 <= i < |draws| ==> DrawOk(draws[i])
    ensures |products| == GENERATED_PRODUCTS
    ensures forall i :: 0 <= i < |products| ==> products[i] == GeneratedProduct(i, draws[i], now)
    ensures forall i :: 0 <= i < |products| ==> 1 <= products[i].categoryId <= |POSSIBLE_CATEGORIES|
  {
    products := [];
    var i := 0;
    while i < GENERATED_PRODUCTS
      invariant 0 <= i <= GENERATED_PRODUCTS
      invariant |products| == i
      invariant forall j :: 0 <= j < i ==> products[j] == GeneratedProduct(j, draws[j], now)
    {
      products := products + [GeneratedProduct(i, draws[i], now)];
      i := i + 1;
    }
  }

  /**
   * Product category ids run from 1 to 18 while the generated categories have
   * ids 0 to 17: no product is in category 0, and a product drawn into
   * category 18 names no category.
   */
  lemma GeneratedCategoryIdsShifted(categories: seq<Category>, product: Product, now: Time)
    requires |categories| == 18 && forall i :: 0 <= i < 18 ==> categories[i] == GeneratedCategory(i, now)
    requires 1 <= product.categoryId <= 18
    ensures product.categoryId == 18 ==> IndexOf(Ids(categories, CategoryId), product.categoryId) == |categories|
  {
  }

  /** In the generated categories, id i is found at index i. */
  lemma {:induction false} GeneratedCategoryIndex(categories: seq<Category>, i: int, now: Time)
    requires |categories| == 18 && forall j :: 0 <= j < 18 ==> categories[j] == GeneratedCategory(j, now)
    requires 0 <= i < 18
    ensures IndexOf(Ids(categories, CategoryId), i) == i
  {
    var ids := Ids(categories, CategoryId);
    var k := IndexOf(ids, i);
    assert ids[i] == i;
    assert k <= i;
  }

  // ---------------------------------------------------------------------------
  // The store

  class DbServiceMock {
    var products: seq<Product>
    var categories: seq<Category>

    /** NewMockDb; the random draws and the clock reading are parameters. */
    constructor (draws: seq<ProductDraw>, now: Time)
      requires |draws| == GENERATED_PRODUCTS
      requires forall i :: 0 <= i < |draws| ==> DrawOk(draws[i])
      ensures |products| == GENERATED_PRODUCTS && |categories| == 18
      ensures forall i :: 0 <= i < |categories| ==> categories[i] == GeneratedCategory(i, now)
      ensures forall i :: 0 <= i < |products| ==> products[i] == GeneratedProduct(i, draws[i], now)
    {
      var cs := GenerateCategories(now);
      var ps := GenerateProducts(draws, now);
      products := ps;
      categories := cs;
    }

    /** GetProducts: the whole slice, whatever the paging and sorting arguments. */
    method GetProducts(offset: int, limit: int, orderBy: string, asc: bool) returns (all: seq<Product>, err: Option<string>)
      ensures all == products && err.None?
    {
      return products, None;
    }

    /** GetProduct: the first product, whatever the id. */
    method GetProduct(id: string) returns (product: Product, err: Option<string>)
      requires |products| > 0
      ensures product == products[0] && err.None?
    {
      return products[0], None;
    }

    /** AddProduct: appends the product under a fresh id and returns that id. */
    method AddProduct(product: Product, freshId: string) returns (id: string, err: Option<string>)
      requires |freshId| == 36
      modifies this
      ensures products == old(products) + [product.(id := freshId)]
      ensures categories == old(categories)
      ensures id == freshId && err.None?
    {
      products := products + [product.(id := freshId)];
      return freshId, None;
    }

    /** UpdateProduct: overwrites the first product, whatever its id. */
    method UpdateProduct(product: Product) returns (err: Option<string>)
      requires |products| > 0
      modifies this
      ensures products == old(products)[0 := product]
      ensures categories == old(categories)
      ensures err.None?
    {
      products := products[0 := product];
      return None;
    }

    /**
     * DeleteProduct: the first product with the id is removed in place as
     * ShiftLeft describes; no match and a match at index 0 both report
     * "product not found" and change nothing.
     */
    method DeleteProduct(id: string) returns (err: Option<string>)
      modifies this
      ensures var k := IndexOf(Ids(old(products), ProductId), id);
        if k == 0 || k == |old(products)| then
          err == Some("product not found") && products == old(products)
        else
          err.None? && products == ShiftLeft(old(products), k)
      ensures categories == old(categories)
    {
      var index := 0;
      var i := 0;
      while i < |products|
        invariant 0 <= i <= |products|
        invariant forall j :: 0 <= j < i ==> products[j].id != id
        invariant index == 0
      {
        if products[i].id == id {
          index := i;
          break;
        }
        i := i + 1;
      }
      assert i == IndexOf(Ids(products, ProductId), id) by {
        IndexOfFirst(Ids(products, ProductId), id, i);
      }
      if index == 0 {
        return Some("product not found");
      }
      products := ShiftLeft(products, index);
      return None;
    }

    /** GetCategories: the whole slice, whatever the paging and sorting arguments. */
    method GetCategories(offset: int, limit: int, orderBy: string, asc: bool) returns (all: seq<Category>, err: Option<string>)
      ensures all == categories && err.None?
    {
      return categories, None;
    }

    /** GetCategory: the first category with the id; otherwise the zero category and "product not found". */
    method GetCategory(id: int) returns (category: Category, err: Option<string>)
      ensures var k := IndexOf(Ids(categories, CategoryId), id);
        && (k < |categories| ==> category == categories[k] && err.None?)
        && (k == |categories| ==> category == ZERO_CATEGORY && err == Some("product not found"))
    {
      var i := 0;
      while i < |categories|
        invariant 0 <= i <= |categories|
        invariant forall j :: 0 <= j < i ==> categories[j].id != id
      {
        if categories[i].id == id {
          IndexOfFirst(Ids(categories, CategoryId), id, i);
          return categories[i], None;
        }
        i := i + 1;
      }
      IndexOfFirst(Ids(categories, CategoryId), id, i);
      return ZERO_CATEGORY, Some("product not found");
    }

    /** AddCategory: appends the category with the id after the last one's (int arithmetic). */
    method AddCategory(category: Category) returns (err: Option<string>)
      requires |categories| > 0
      modifies this
      ensures categories == old(categories) + [category.(id := Add(old(categories)[|old(categories)| - 1].id, 1))]
      ensures products == old(products)
      ensures err.None?
    {
      var last := categories[|categories| - 1];
      categories := categories + [category.(id := Add(last.id, 1))];
      return None;
    }

    /** UpdateCategory: replaces the first category with the same id; otherwise "category not found". */
    method UpdateCategory(category: Category) returns (err: Option<string>)
      modifies this
      ensures var k := IndexOf(Ids(old(categories), CategoryId), category.id);
        && (k < |old(categories)| ==> categories == old(categories)[k := category] && err.None?)
        && (k == |old(categories)| ==> categories == old(categories) && err == Some("category not found"))
      ensures products == old(products)
    {
      var i := 0;
      while i < |categories|
        invariant 0 <= i <= |categories|
        invariant categories == old(categories)
        invariant forall j :: 0 <= j < i ==> categories[j].id != category.id
      {
        if categories[i].id == category.id {
          IndexOfFirst(Ids(categories, CategoryId), category.id, i);
          categories := categories[i := category];
          return None;
        }
        i := i + 1;
      }
      IndexOfFirst(Ids(categories, CategoryId), category.id, i);
      return Some("category not found");
    }

    /**
     * DeleteCategory: as DeleteProduct, with "category not found".
     */
    method DeleteCategory(id: int) returns (err: Option<string>)
      modifies this
      ensures var k := IndexOf(Ids(old(categories), CategoryId), id);
        if k == 0 || k == |old(categories)| then
          err == Some("category not found") && categories == old(categories)
        else
          err.None? && categories == ShiftLeft(old(categories), k)
      ensures products == old(products)
    {
      var index := 0;
      var i := 0;
      while i < |categories|
        invariant 0 <= i <= |categories|
        invariant forall j :: 0 <= j < i ==> categories[j].id != id
        invariant index == 0
      {
        if categories[i].id == id {
          index := i;
          break;
        }
        i := i + 1;
      }
      assert i == IndexOf(Ids(categories, CategoryId), id) by {
        IndexOfFirst(Ids(categories, CategoryId), id, i);
      }
      if index == 0 {
        return Some("category not found");
      }
      categories := ShiftLeft(categories, index);
      return None;
    }

    /** AddUser is not implemented by the mock. */
    method AddUser(username: string, password: string) returns (err: Option<string>)
      ensures err == Some("method not implemented")
    {
      return Some("method not implemented");
    }

    /** UserExists: no user exists in the mock. */
    method UserExists(username: string, password: string) returns (exists_: bool)
      ensures !exists_
    {
      return false;
    }
  }

  /** A search that stopped at i, passing only non-matches, found the first occurrence (or none). */
  lemma {:induction false} IndexOfFirst<K>(keys: seq<K>, key: K, i: nat)
    requires i <= |keys|
    requires forall j :: 0 <= j < i ==> keys[j] != key
    requires i < |keys| ==> keys[i] == key
    ensures IndexOf(keys, key) == i
    decreases i
  {
    if i > 0 {
      assert keys[0] != key;
      IndexOfFirst(keys[1..], key, i - 1);
    }
  }

  /**
   * On a freshly generated store, category 0 exists and is found, yet deleting it
   * reports "category not found": the first match sits at index 0.
   */
  method DeleteFirstCategoryRefused(draws: seq<ProductDraw>, now: Time) returns (found: Option<string>, deleted: Option<string>)
    requires |draws| == GENERATED_PRODUCTS
    requires forall i :: 0 <= i < |draws| ==> DrawOk(draws[i])
    ensures found.None?
    ensures deleted == Some("category not found")
  {
    var store := new DbServiceMock(draws, now);
    GeneratedCategoryIndex(store.categories, 0, now);
    var c;
    c, found := store.GetCategory(0);
    deleted := store.DeleteCategory(0);
  }
}
