/** The `Order` entity: a validating constructor that either builds a
    `PENDING` order or throws the message of the first rule the input breaks. */
module Orders {
  import opened Errors

  datatype OrderStatus = PENDING | CONFIRMED | SHIPPED | DELIVERED | CANCELLED

  /** An order as constructed. `id` is `None` until the persistence layer
      assigns one; `createdAt` is the clock reading taken at construction. */
  datatype Order = Order(
    id: Option<int>,
    productIds: seq<int>,
    totalPrice: real,
    createdAt: int,
    status: OrderStatus)

  const MIN_PRODUCTS: nat := 1
  const MAX_PRODUCTS: nat := 5
  const MIN_TOTAL_PRICE: real := 2.0
  const MAX_TOTAL_PRICE: real := 500.0

  const NO_PRODUCT := "Une commande doit contenir au moins 1 produit"
  const TOO_MANY_PRODUCTS := "Une commande ne peut contenir plus de 5 produits"
  const TOTAL_TOO_LOW := "Le prix total doit être supérieur ou égal à 2€"
  const TOTAL_TOO_HIGH := "Le prix total doit être inférieur ou égal à 500€"

  /** The invariant every constructed order satisfies (bounds are inclusive). */
  predicate WithinBounds(productIds: seq<int>, totalPrice: real) {
    && MIN_PRODUCTS <= |productIds| <= MAX_PRODUCTS
    && MIN_TOTAL_PRICE <= totalPrice <= MAX_TOTAL_PRICE
  }

  predicate ValidOrder(o: Order) {
    WithinBounds(o.productIds, o.totalPrice)
  }

  /** `validateProductIds`: an absent or empty list, then a list of more than five. */
  function ValidateProductIds(productIds: Option<seq<int>>): (r: Outcome)
    ensures r.Pass? <==> productIds.Some? && MIN_PRODUCTS <= |productIds.value| <= MAX_PRODUCTS
    ensures productIds.None? || |productIds.value| == 0 ==> r == Fail(Error(NO_PRODUCT))
    ensures productIds.Some? && |productIds.value| > MAX_PRODUCTS ==> r == Fail(Error(TOO_MANY_PRODUCTS))
  {
    if productIds.None? || |productIds.value| < 1 then
      Fail(Error(NO_PRODUCT))
    else if |productIds.value| > 5 then
      Fail(Error(TOO_MANY_PRODUCTS))
    else
      Pass
  }

  /** `validateTotalPrice`: a total below 2, then a total above 500. */
  function ValidateTotalPrice(totalPrice: real): (r: Outcome)
    ensures r.Pass? <==> MIN_TOTAL_PRICE <= totalPrice <= MAX_TOTAL_PRICE
    ensures totalPrice < MIN_TOTAL_PRICE ==> r == Fail(Error(TOTAL_TOO_LOW))
    ensures totalPrice > MAX_TOTAL_PRICE ==> r == Fail(Error(TOTAL_TOO_HIGH))
  {
    if totalPrice < 2.0 then
      Fail(Error(TOTAL_TOO_LOW))
    else if totalPrice > 500.0 then
      Fail(Error(TOTAL_TOO_HIGH))
    else
      Pass
  }

  /** The constructor: product ids are checked before the total, the first
      failure is thrown, and on success the inputs are stored unchanged. */
  function NewOrder(productIds: Option<seq<int>>, totalPrice: real, createdAt: int): (r: Result<Order>)
    ensures r.Ok? <==> productIds.Some? && WithinBounds(productIds.value, totalPrice)
    ensures r.Ok? ==> ValidOrder(r.value)
    ensures r.Ok? ==>
      && r.value.productIds == productIds.value
      && r.value.totalPrice == totalPrice
      && r.value.createdAt == createdAt
      && r.value.status == PENDING
      && r.value.id.None?
    ensures ValidateProductIds(productIds).Fail? ==> r == Err(ValidateProductIds(productIds).error)
    ensures productIds.None? || |productIds.value| == 0 ==> r == Err(Error(NO_PRODUCT))
    ensures productIds.Some? && |productIds.value| > MAX_PRODUCTS ==> r == Err(Error(TOO_MANY_PRODUCTS))
    ensures productIds.Some? && MIN_PRODUCTS <= |productIds.value| <= MAX_PRODUCTS ==>
      && (totalPrice < MIN_TOTAL_PRICE ==> r == Err(Error(TOTAL_TOO_LOW)))
      && (totalPrice > MAX_TOTAL_PRICE ==> r == Err(Error(TOTAL_TOO_HIGH)))
  {
    match ValidateProductIds(productIds)
    case Fail(e) => Err(e)
    case Pass =>
      match ValidateTotalPrice(totalPrice)
      case Fail(e) => Err(e)
      case Pass => Ok(Order(None, productIds.value, totalPrice, createdAt, PENDING))
  }

  // A reference statement of "checks run in a fixed order and the first
  // failure wins", independent of how the validators are nested.

  datatype OrderRule = AtLeastOneProduct | AtMostFiveProducts | TotalAtLeastTwo | TotalAtMostFiveHundred

  /** The rules in the order the constructor evaluates them. */
  const ORDER_RULES: seq<OrderRule> :=
    [AtLeastOneProduct, AtMostFiveProducts, TotalAtLeastTwo, TotalAtMostFiveHundred]

  predicate Breaks(rule: OrderRule, productIds: Option<seq<int>>, totalPrice: real) {
    match rule
    case AtLeastOneProduct => productIds.None? || |productIds.value| < MIN_PRODUCTS
    case AtMostFiveProducts => productIds.Some? && |productIds.value| > MAX_PRODUCTS
    case TotalAtLeastTwo => totalPrice < MIN_TOTAL_PRICE
    case TotalAtMostFiveHundred => totalPrice > MAX_TOTAL_PRICE
  }

  function RuleMessage(rule: OrderRule): string {
    match rule
    case AtLeastOneProduct => NO_PRODUCT
    case AtMostFiveProducts => TOO_MANY_PRODUCTS
    case TotalAtLeastTwo => TOTAL_TOO_LOW
    case TotalAtMostFiveHundred => TOTAL_TOO_HIGH
  }

  /** Construction succeeds exactly when no rule is broken, and otherwise
      fails with the message of the earliest broken rule. */
  lemma NewOrderReportsFirstBrokenRule(productIds: Option<seq<int>>, totalPrice: real, createdAt: int)
    ensures NewOrder(productIds, totalPrice, createdAt).Ok? <==>
      forall k | 0 <= k < |ORDER_RULES| :: !Breaks(ORDER_RULES[k], productIds, totalPrice)
    ensures NewOrder(productIds, totalPrice, createdAt).Err? ==>
      exists k | 0 <= k < |ORDER_RULES| ::
        && Breaks(ORDER_RULES[k], productIds, totalPrice)
        && (forall j | 0 <= j < k :: !Breaks(ORDER_RULES[j], productIds, totalPrice))
        && NewOrder(productIds, totalPrice, createdAt).error == Error(RuleMessage(ORDER_RULES[k]))
  {
    var r := NewOrder(productIds, totalPrice, createdAt);
    var k: nat :=
      if Breaks(AtLeastOneProduct, productIds, totalPrice) then 0
      else if Breaks(AtMostFiveProducts, productIds, totalPrice) then 1
      else if Breaks(TotalAtLeastTwo, productIds, totalPrice) then 2
      else if Breaks(TotalAtMostFiveHundred, productIds, totalPrice) then 3
      else 4;
    if k < 4 {
      assert Breaks(ORDER_RULES[k], productIds, totalPrice);
      assert forall j | 0 <= j < k :: !Breaks(ORDER_RULES[j], productIds, totalPrice);
      assert r.error == Error(RuleMessage(ORDER_RULES[k]));
    } else {
      assert forall j | 0 <= j < |ORDER_RULES| :: !Breaks(ORDER_RULES[j], productIds, totalPrice);
    }
  }

  /** An input that breaks both a product-count rule and a price rule is
      reported with the product-count message. */
  lemma ProductCountCheckedBeforePrice(productIds: Option<seq<int>>, totalPrice: real, createdAt: int)
    requires productIds.None? || |productIds.value| < MIN_PRODUCTS || |productIds.value| > MAX_PRODUCTS
    requires totalPrice < MIN_TOTAL_PRICE || totalPrice > MAX_TOTAL_PRICE
    ensures NewOrder(productIds, totalPrice, createdAt).Err?
    ensures NewOrder(productIds, totalPrice, createdAt).error.message in {NO_PRODUCT, TOO_MANY_PRODUCTS}
  {
  }

  /** The bounds are inclusive: one and five ids, totals of 2 and 500 are accepted. */
  lemma BoundsAreInclusive(productIds: seq<int>, totalPrice: real, createdAt: int)
    requires |productIds| == MIN_PRODUCTS || |productIds| == MAX_PRODUCTS
    requires totalPrice == MIN_TOTAL_PRICE || totalPrice == MAX_TOTAL_PRICE
    ensures NewOrder(Some(productIds), totalPrice, createdAt).Ok?
  {
  }
}
