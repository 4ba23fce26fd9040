/** The records of pkg/model: a product and a category, as stored and as sent as JSON. */
module Model {

  /** A float32 price, kept as its IEEE bit pattern; no arithmetic is done on it. */
  datatype Price = Float32(bits: bv32)

  /** A time.Time value; only copied, never compared or computed with. */
  datatype Time = Time(stamp: int)

  /** model.Product. The id is a UUID string assigned when the product is created. */
  datatype Product = Product(
    id: string,
    categoryId: int,
    title: string,
    imageUrl: string,
    price: Price,
    description: string,
    createdAt: Time,
    updatedAt: Time)

  /** model.Category. The `position` field is the `pos` column of the table. */
  datatype Category = Category(
    id: int,
    title: string,
    position: int,
    imageUrl: string,
    createdAt: Time,
    updatedAt: Time)

  /** Go's zero values, `model.Product{}` and `model.Category{}`. */
  const ZERO_TIME := Time(0)
  const ZERO_PRODUCT := Product("", 0, "", "", Float32(0), "", ZERO_TIME, ZERO_TIME)
  const ZERO_CATEGORY := Category(0, "", 0, "", ZERO_TIME, ZERO_TIME)
}
