/**
 * The persistent entities the product catalogue works on, as values.
 * Every reference-typed Java field that may be `null` is an `Option`, except
 * the ids, which a stored row always has.
 */
module Entities {
  import opened Wrappers

  /** A category association of a product: its id and, once resolved, its name. */
  datatype Category = Category(id: int, name: Option<string>)

  /** A row of the product table together with its category associations. */
  datatype Product = Product(
    id: int,
    name: Option<string>,
    description: Option<string>,
    price: Option<real>,
    imgUrl: Option<string>,
    categories: set<Category>)

  /** The ids of a set of category associations. */
  function CategoryIds(cs: set<Category>): set<int>
  {
    set c | c in cs :: c.id
  }
}
