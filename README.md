# Order and product use cases, modelled in Dafny

This project models the decision logic of a small order/product backend written in TypeScript:

- the `Order` entity's validating constructor (`Orders`, `order.dfy`);
- the create-order use case over its one-method repository (`CreateOrder`, `create_order.dfy`);
- the product rules applied by `Product.update` (`Products`, `product.dfy`);
- the update-product use case over its two-method repository (`UpdateProduct`, `update_product.dfy`).

`errors.dfy` (`Errors`) holds the values that stand for `null`/`undefined`, for a thrown `Error` and for the outcome "returned or threw".

How the model is built:

- **Order construction is a function.** `NewOrder` returns `Result<Order>`. A thrown `Error` becomes `Err(Error(message))`. Its checks run in the source's order, and the first failure wins: an absent or empty id list, then more than 5 ids, then a total below 2, then a total above 500. A second, table-driven statement of the four rules (`ORDER_RULES`, `Breaks`, `RuleMessage`) is proved to agree with `NewOrder`.
- **Each use case is a class.** It holds a field for its repository and has an `Execute` method. Each repository interface becomes an in-memory store class:
  - `OrderStore` holds the list of persisted orders.
  - `ProductStore` holds a `map<int, ProductRow>` keyed by product id.
  - A store's `acceptsWrites` field decides whether its `save` resolves or rejects.
  - `ProductStore`'s `readFailure` field decides whether its `findOneById` rejects, and with which error. The lookup sits outside the `try`, so that error reaches the caller unchanged. Only a failing `save` is replaced by "Error updating product".
  - A ghost `saveCalls` log records every value passed to `save`. This lets the contracts say when `save` is called, how often, and with what.
- **Each `Execute` is proved against a specification function.** These are `CreateOrderSpec` and `UpdateProductSpec`. They give the result, the new store contents and the value passed to `save`. The source's promises are proved about these functions:
  - validation errors and lookup errors propagate unchanged;
  - `save` is not called after a failed check;
  - a failed save is replaced by a fixed message;
  - no other store entry changes.
- **Replay lemmas cover any sequence of requests.** `ReplayPersistsOnlyValidOrders` and `ReplayKeepsCatalogue` show that the stores only ever hold entities that satisfy the entity invariants.
- **`findOneById` returns a fresh `Product` object.** The object is built from the stored row, as an ORM hands out entities. `Product.Update` then changes that object in place, and only `Save` writes it back.

Inputs that come from outside are parameters:
- the creation timestamp `createdAt` (the clock), passed as `now`;
- whether the store accepts writes, and whether (and with which error) the product store's reads reject;
- every command field.

Prices are `real`. Order product ids are `int`. An absent `productIds` is `None`.

Two points follow the code closely:

- **Error kinds.** The code does not use distinct validation, not-found and persistence error classes. It throws plain `Error` objects, told apart only by their message. The model has one `Error` datatype that carries the message.
- **Update return value.** The update use case does not return the updated product. It declares `Promise<void>` and returns whatever the repository's `save` resolves to. The ORM adapter resolves to nothing, so `UpdateProductUsecase.Execute` returns an `Outcome` (`Pass` or `Fail`). On success, the updated row is the one written to the store.

`Product.ts` is not part of this model. What `Product.update` does is inferred from the messages the test fixtures expect. No fixture sits on a bound or breaks two rules at once, so the comparison operators and the check order below are assumptions taken from the messages' wording:
- a title shorter than 3 characters fails with "titre trop court";
- `price <= 0` fails with "le prix doit être supérieur à 0";
- `price >= 10000` fails with "le prix doit être inférieur à 10000";
- the title is checked before the price;
- a failed check changes nothing;
- on success, title, description and price are set and the id is kept.

## Model

| member | source | states |
|---|---|---|
| `Orders.ValidateProductIds` | src/module/order/Order.ts:48-56 | Passes exactly when the list is present and holds 1 to 5 ids. An absent or empty list fails with "Une commande doit contenir au moins 1 produit". More than 5 ids fails with "Une commande ne peut contenir plus de 5 produits". |
| `Orders.ValidateTotalPrice` | src/module/order/Order.ts:58-66 | Passes exactly when 2 <= total <= 500. Below 2 fails with the "supérieur ou égal à 2€" message. Above 500 fails with the "inférieur ou égal à 500€" message. |
| `Orders.NewOrder` | src/module/order/Order.ts:32-46 | Succeeds exactly when the ids are present and the order bounds hold. The result then satisfies the order invariant, stores ids, total and timestamp unchanged, has status `PENDING` and no id. A product-id failure is returned as is, before the price is looked at. For a valid id list, each price failure gets its own message. |
| `Orders.NewOrderReportsFirstBrokenRule` | src/module/order/Order.ts:39-40 | Agrees with the rule table: success exactly when no rule is broken. Otherwise the error carries the message of the earliest broken rule in evaluation order. |
| `Orders.ProductCountCheckedBeforePrice` | src/module/order/Order.ts:39-40 | An input that breaks a product-count rule and a price rule fails with a product-count message. |
| `Orders.BoundsAreInclusive` | src/module/order/Order.ts:49-63 | Lists of length 1 or 5 with totals of 2 or 500 are accepted. |
| `CreateOrder.CreateOrderSpec` | src/module/order/createOrder/createOrderUseCase.ts:11-26 | A validation error is returned unchanged, the store is unchanged and `save` is not called. Otherwise `save` is called once, with the constructed order. A resolved save returns that same order and appends it. A rejected save gives "Erreur lors de la création de la commande" and keeps the store. A returned order is valid, has the input ids and total, and is `PENDING`. |
| `CreateOrder.OrderStore.constructor` | src/module/order/createOrder/test/createOrderUseCase.spec.ts:6-10 | A store double starts empty, with no save calls, and with the given write behaviour. |
| `CreateOrder.OrderStore.Save` | src/module/order/createOrder/createOrderRepository.ts:4 | Resolves exactly when the store accepts writes. It then appends the order; otherwise the contents are kept. The call is logged. |
| `CreateOrder.CreateOrderUseCase.constructor` | src/module/order/createOrder/createOrderUseCase.ts:7-9 | Keeps the given repository. |
| `CreateOrder.CreateOrderUseCase.Execute` | src/module/order/createOrder/createOrderUseCase.ts:11-26 | Result, new store contents and save-call log are exactly those of `CreateOrderSpec` on the old store. The store's write behaviour is unchanged. |
| `CreateOrder.ReplayPersistsOnlyValidOrders` | src/module/order/createOrder/createOrderUseCase.ts:18-25 | Over any sequence of requests and storage failures, earlier orders are kept as a prefix. Every persisted order satisfies the order invariant. At most one order is added per request. |
| `CreateOrder.ValidOrderIsCreated` | src/module/order/createOrder/test/createOrderUseCase.spec.ts:14-29 | `[1, 2, 3]` with total 150 gives a `PENDING` order with exactly those ids and that total. |
| `CreateOrder.InvalidOrdersAreRejected` | src/module/order/createOrder/test/createOrderUseCase.spec.ts:31-71 | Six ids, a total of 1 and a total of 600 are rejected with the test's three messages. |
| `CreateOrder.CreateOrderClient` | src/module/order/createOrder/test/createOrderUseCase.spec.ts:12-73 | The test's four calls, made through the use-case object and a resolving store, give the `PENDING` order `[1, 2, 3]` at 150 and the three rejection messages. The store then holds that one order only. |
| `Products.CheckFields` | src/module/product/createProduct/test/createProduct.e2e.spec.ts:71-135 | Passes exactly when the title has at least 3 characters and 0 < price < 10000. A short title fails with "titre trop court" whatever the price. With a long enough title, price <= 0 and price >= 10000 fail with their own messages. |
| `Products.Updated` | src/module/product/updateProduct/test/updateProductUseCase.spec.ts:29-73 | Succeeds exactly when the new fields are valid. The result then satisfies the product invariant, keeps the id and carries the new title, description and price. Otherwise it fails with the error of the field checks. |
| `Products.UpdateIsIdempotent` | src/module/product/updateProduct/test/updateProductUseCase.spec.ts:29-39 | Updating twice with the same valid arguments gives the same product as updating once. |
| `Products.UpdateForgetsOldFields` | src/module/product/updateProduct/updateProductUseCase.ts:26 | The outcome of an update depends on the old product only through its id. |
| `Products.Product.FromRow` | src/module/product/updateProduct/updateProductTypeOrmRepository.ts:13-15 | A loaded entity shows exactly the stored row. |
| `Products.Product.Update` | src/module/product/updateProduct/updateProductUseCase.ts:26 | On valid input, the object's fields become those of `Updated`. On invalid input, it returns that error and leaves every field unchanged. |
| `UpdateProduct.UpdateProductSpec` | src/module/product/updateProduct/updateProductUseCase.ts:17-33 | A rejected lookup gives its own error unchanged, with no save and no change. An unknown id gives "Product not found", with no save and no change. Invalid fields give the validation error unchanged, with no save and no change. Otherwise `save` is called once, with the loaded product carrying the command's title, description and price. A resolved save writes it under its id. A rejected save gives "Error updating product" and keeps the store. On an id-keyed store, the keys and every other product stay unchanged. |
| `UpdateProduct.ProductStore.constructor` | src/module/product/updateProduct/test/updateProductUseCase.spec.ts:6-20 | A store double starts with the given rows, read and write behaviour, and no save calls. |
| `UpdateProduct.ProductStore.FindOneById` | src/module/product/updateProduct/updateProductRepository.ts:4 | Rejects with the store's read error when it has one. Otherwise it resolves to `null` exactly when no row is stored under the id, and else to a fresh entity showing that row. |
| `UpdateProduct.ProductStore.Save` | src/module/product/updateProduct/updateProductRepository.ts:5 | Resolves exactly when the store accepts writes. It then writes the product under its id; otherwise the rows are kept. The call is logged. |
| `UpdateProduct.UpdateProductUsecase.constructor` | src/module/product/updateProduct/updateProductUseCase.ts:13-15 | Keeps the given repository. |
| `UpdateProduct.UpdateProductUsecase.Execute` | src/module/product/updateProduct/updateProductUseCase.ts:17-33 | Outcome, new rows and save-call log are exactly those of `UpdateProductSpec` on the old store, looked up by the command's id. The store's read and write behaviour is unchanged. |
| `UpdateProduct.ReplayKeepsCatalogue` | src/module/product/updateProduct/updateProductUseCase.ts:20-29 | Over any sequence of update requests and read or write failures, from an id-keyed catalogue of valid products: no product is added or removed, ids stay keyed, and every product stays valid. |
| `UpdateProduct.SwitchCatalogue` | src/module/product/updateProduct/test/updateProductUseCase.spec.ts:6-15 | The test's store holds the single valid product 2. |
| `UpdateProduct.SwitchScenarios` | src/module/product/updateProduct/test/updateProductUseCase.spec.ts:23-73 | Updating product 2 to "switch 3" at 5000 stores exactly those fields. Title "sw" fails with "titre trop court". Price -10 fails with "le prix doit être supérieur à 0". |
| `UpdateProduct.UpdateProductClient` | src/module/product/updateProduct/test/updateProductUseCase.spec.ts:22-73 | Through the use-case object: title "sw" fails with "titre trop court", an unknown id with "Product not found", and "switch 3" at 5000 succeeds and stores exactly those fields under id 2. With a store whose reads reject, the read error is returned unchanged and nothing is saved. |

## Left out

- HTTP controllers (`updateProductController.ts`, `createOrderController.ts`) are left out. They parse the route and body, run `parseInt` on the path id, and map a thrown `Error` to 400 and anything else to 500. This is transport plumbing.
- The TypeORM adapters and the global data source are left out. They are foreign calls, replaced by the in-memory `OrderStore` and `ProductStore`. The stores do not assign ids on first save. This is why `Order.id` stays `None`.
- Server wiring (`app.ts`: CORS, JSON parsing, health route) and the Postgres container set-up of the end-to-end test are left out. They are infrastructure.
- `async`/`Promise` are left out. Each `execute` is one sequential method, and concurrent requests are not modelled.
- The clock read `new Date()` is a parameter (`now`). Its "at or after invocation" property is not modelled.
- Prices are exact `real`s. IEEE rounding, infinities and the `float` column type are not modelled. Neither is `NaN`, although it matters: a `NaN` `totalPrice` passes both `< 2` and `> 500` (`Order.ts:59,63`), so the source builds an order that breaks the bounds `NewOrder` proves. Under the assumed product rules, a `NaN` price likewise passes both price checks.
- JavaScript measures a title in UTF-16 code units; the model counts Dafny characters (Unicode scalar values). They differ for characters outside the Basic Multilingual Plane.
- Dynamic-typing failures are not modelled: a constructor call without an argument object (a `TypeError` on destructuring), a non-array `productIds`, non-numeric prices, an `undefined` title. Neither are the falsy values other than `null`/`undefined` that `!productIds` also rejects.
- Order status transitions are left out. Only `PENDING` is ever assigned.
- The `Product` constructor and the create-product use case are left out. `Product.ts` is not part of this model.
- Aliasing between a store and the entities it hands out is not modelled. `FindOneById` returns a fresh copy, as an ORM does. A repository double that returned its own stored object would already show the in-place change before a failing save; the model does not capture that.
- `UpdateProduct.UpdateProductUsecase.Execute`: its result states the outcome only (success or the error). The saved product itself is described through the store's rows and save log. This follows the `Promise<void>` declaration and not the test double, whose `save` resolves to the product.
