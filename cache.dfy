/**
 * The in-memory cache (pkg/cache/cachermock.go): three independent string maps,
 * for products, categories and whole responses, each keyed by a string. No
 * operation fails: every error it returns is nil.
 */
module Cache {
  import opened Wrappers

  /** A map read the way the cache reads it: the stored text, or "" for an absent key. */
  function Lookup(m: map<string, string>, key: string): (r: string)
    ensures key in m ==> r == m[key]
    ensures key !in m ==> r == ""
  {
    if key in m then m[key] else ""
  }

  /** Set then Get on the same key gives the stored text back. */
  lemma LookupStored(m: map<string, string>, key: string, value: string)
    ensures Lookup(m[key := value], key) == value
  {
  }

  /** Set touches only its own key. */
  lemma LookupOtherKey(m: map<string, string>, key: string, value: string, other: string)
    requires other != key
    ensures Lookup(m[key := value], other) == Lookup(m, other)
  {
  }

  /** After Delete a key reads as "". */
  lemma LookupDeleted(m: map<string, string>, key: string)
    ensures Lookup(m - {key}, key) == ""
  {
  }

  /** Deleting an absent key changes nothing. */
  lemma DeleteAbsent(m: map<string, string>, key: string)
    requires key !in m
    ensures m - {key} == m
  {
  }

  /** Delete touches only its own key. */
  lemma DeleteOtherKey(m: map<string, string>, key: string, other: string)
    requires other != key
    ensures Lookup(m - {key}, other) == Lookup(m, other)
  {
  }

  /** A written value is the only thing a key remembers: a second Set replaces the first. */
  lemma SetOverwrites(m: map<string, string>, key: string, first: string, second: string)
    ensures m[key := first][key := second] == m[key := second]
  {
  }

  /** CacherMock. */
  class CacherMock {
    var products: map<string, string>
    var categories: map<string, string>
    var responses: map<string, string>

    /** NewCacherMock: three empty maps. */
    constructor ()
      ensures products == map[] && categories == map[] && responses == map[]
    {
      products := map[];
      categories := map[];
      responses := map[];
    }

    method SetProduct(id: string, prodStr: string) returns (err: Option<string>)
      modifies this
      ensures products == old(products)[id := prodStr]
      ensures categories == old(categories) && responses == old(responses)
      ensures err.None?
    {
      products := products[id := prodStr];
      err := None;
    }

    method GetProduct(id: string) returns (value: string, err: Option<string>)
      ensures value == Lookup(products, id)
      ensures err.None?
    {
      if id in products {
        return products[id], None;
      }
      return "", None;
    }

    method DeleteProduct(id: string) returns (err: Option<string>)
      modifies this
      ensures products == old(products) - {id}
      ensures categories == old(categories) && responses == old(responses)
      ensures err.None?
    {
      products := products - {id};
      err := None;
    }

    method SetCategory(id: string, catStr: string) returns (err: Option<string>)
      modifies this
      ensures categories == old(categories)[id := catStr]
      ensures products == old(products) && responses == old(responses)
      ensures err.None?
    {
      categories := categories[id := catStr];
      err := None;
    }

    method GetCategory(id: string) returns (value: string, err: Option<string>)
      ensures value == Lookup(categories, id)
      ensures err.None?
    {
      if id in categories {
        return categories[id], None;
      }
      return "", None;
    }

    method DeleteCategory(id: string) returns (err: Option<string>)
      modifies this
      ensures categories == old(categories) - {id}
      ensures products == old(products) && responses == old(responses)
      ensures err.None?
    {
      categories := categories - {id};
      err := None;
    }

    method GetAllProducts() returns (all: map<string, string>, err: Option<string>)
      ensures all == products
      ensures err.None?
    {
      return products, None;
    }

    method GetAllCategories() returns (all: map<string, string>, err: Option<string>)
      ensures all == categories
      ensures err.None?
    {
      return categories, None;
    }

    method SetApiRequest(path: string, serializedResponse: string) returns (err: Option<string>)
      modifies this
      ensures responses == old(responses)[path := serializedResponse]
      ensures products == old(products) && categories == old(categories)
      ensures err.None?
    {
      responses := responses[path := serializedResponse];
      err := None;
    }

    method GetApiRequest(path: string) returns (value: string, err: Option<string>)
      ensures value == Lookup(responses, path)
      ensures err.None?
    {
      if path in responses {
        return responses[path], None;
      }
      return "", None;
    }
  }

  /**
   * The map laws on one cache object: a product written and read back is the
   * text written, a category written alongside does not disturb it, and after
   * a delete the product reads as "".
   */
  method SetGetDelete(c: CacherMock, id: string, prodStr: string, catStr: string)
    returns (before: string, after: string)
    modifies c
    ensures before == prodStr
    ensures after == ""
    ensures c.categories == old(c.categories)[id := catStr]
    ensures c.responses == old(c.responses)
  {
    var _ := c.SetProduct(id, prodStr);
    var _ := c.SetCategory(id, catStr);
    var err;
    before, err := c.GetProduct(id);
    var _ := c.DeleteProduct(id);
    after, err := c.GetProduct(id);
  }
}
