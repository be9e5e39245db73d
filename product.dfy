/** The `Product` entity as the update use case sees it: a persisted row
    and an object whose `update` re-validates and then sets three fields.
    The rules are those the test fixtures reject with these messages; the
    exact comparison operators (strict bounds, from "supérieur à" and
    "inférieur à") and the order of the checks (title, then price) are
    assumed from the wording, since no fixture sits on a bound or breaks
    two rules at once. */
module Products {
  import opened Errors

  /** A product as the store holds it. */
  datatype ProductRow = ProductRow(id: int, title: string, description: string, price: real)

  const MIN_TITLE_LENGTH: nat := 3
  const MAX_PRICE: real := 10000.0

  const TITLE_TOO_SHORT := "titre trop court"
  const PRICE_TOO_LOW := "le prix doit être supérieur à 0"
  const PRICE_TOO_HIGH := "le prix doit être inférieur à 10000"

  /** The product invariant: a title of at least three characters and a price
      strictly between 0 and 10000. */
  predicate ValidFields(title: string, price: real) {
    |title| >= MIN_TITLE_LENGTH && 0.0 < price < MAX_PRICE
  }

  predicate ValidRow(row: ProductRow) {
    ValidFields(row.title, row.price)
  }

  /** The checks of `update`: the title first, then the two price bounds. */
  function CheckFields(title: string, price: real): (r: Outcome)
    ensures r.Pass? <==> ValidFields(title, price)
    ensures |title| < MIN_TITLE_LENGTH ==> r == Fail(Error(TITLE_TOO_SHORT))
    ensures |title| >= MIN_TITLE_LENGTH && price <= 0.0 ==> r == Fail(Error(PRICE_TOO_LOW))
    ensures |title| >= MIN_TITLE_LENGTH && price >= MAX_PRICE ==> r == Fail(Error(PRICE_TOO_HIGH))
  {
    if |title| < 3 then Fail(Error(TITLE_TOO_SHORT))
    else if price <= 0.0 then Fail(Error(PRICE_TOO_LOW))
    else if price >= 10000.0 then Fail(Error(PRICE_TOO_HIGH))
    else Pass
  }

  /** `update(title, description, price)` on a row: all three fields or none. */
  function Updated(row: ProductRow, title: string, description: string, price: real): (r: Result<ProductRow>)
    ensures r.Ok? <==> ValidFields(title, price)
    ensures r.Ok? ==>
      && ValidRow(r.value)
      && r.value.id == row.id
      && r.value.title == title
      && r.value.description == description
      && r.value.price == price
    ensures r.Err? ==> r.error == CheckFields(title, price).error
  {
    match CheckFields(title, price)
    case Fail(e) => Err(e)
    case Pass => Ok(row.(title := title, description := description, price := price))
  }

  /** Updating twice with the same arguments leaves the same fields as updating once. */
  lemma UpdateIsIdempotent(row: ProductRow, title: string, description: string, price: real)
    ensures Updated(row, title, description, price).Ok? ==>
      Updated(Updated(row, title, description, price).value, title, description, price) ==
      Updated(row, title, description, price)
  {
  }

  /** The result of an update depends on the old row only through its id. */
  lemma UpdateForgetsOldFields(a: ProductRow, b: ProductRow, title: string, description: string, price: real)
    requires a.id == b.id
    ensures Updated(a, title, description, price) == Updated(b, title, description, price)
  {
  }

  /** A loaded product entity, mutated in place by `Update`. */
  class Product {
    var id: int
    var title: string
    var description: string
    var price: real

    function Row(): ProductRow
      reads this
    {
      ProductRow(id, title, description, price)
    }

    /** How the persistence layer materialises a stored row (without
        running the validating constructor). */
    constructor FromRow(row: ProductRow)
      ensures Row() == row
    {
      id, title, description, price := row.id, row.title, row.description, row.price;
    }

    /** `update(title, description, price)`: throws on invalid input and then
        changes nothing; otherwise sets the three fields and keeps the id. */
    method Update(newTitle: string, newDescription: string, newPrice: real) returns (o: Outcome)
      modifies this
      ensures var u := Updated(old(Row()), newTitle, newDescription, newPrice);
        && (u.Ok? ==> o == Pass && Row() == u.value)
        && (u.Err? ==> o == Fail(u.error) && Row() == old(Row()))
    {
      o := CheckFields(newTitle, newPrice);
      if o.Pass? {
        title, description, price := newTitle, newDescription, newPrice;
      }
    }
  }
}
