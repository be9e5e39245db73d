/** The update-product use case: load by id, fail when absent, update the
    loaded entity in place (validation errors escape unchanged), then save
    it, replacing any storage failure by a fixed message. */
module UpdateProduct {
  import opened Errors
  import opened Products

  const NOT_FOUND := "Product not found"
  const UPDATE_FAILED := "Error updating product"

  datatype UpdateProductCommand = UpdateProductCommand(id: int, title: string, description: string, price: real)

  /** What one call does: its outcome, the stored rows afterwards, and the
      row passed to `save` (`None` when `save` is not called). */
  datatype UpdateStep = UpdateStep(outcome: Outcome, rows: map<int, ProductRow>, saveCall: Option<ProductRow>)

  /** Rows are stored under their own id, as an id-keyed table holds them. */
  predicate KeyedById(rows: map<int, ProductRow>) {
    forall k | k in rows :: rows[k].id == k
  }

  /** The specification of `execute` on a store holding `rows` whose next
      `findOneById` rejects with `readFailure.value` when there is one, and
      whose next `save` succeeds exactly when `saveSucceeds`. */
  function UpdateProductSpec(rows: map<int, ProductRow>, readFailure: Option<Error>, saveSucceeds: bool,
                             command: UpdateProductCommand): (s: UpdateStep)
    ensures readFailure.Some? ==> s == UpdateStep(Fail(readFailure.value), rows, None)
    ensures readFailure.None? && command.id !in rows ==> s == UpdateStep(Fail(Error(NOT_FOUND)), rows, None)
    ensures readFailure.None? && command.id in rows && !ValidFields(command.title, command.price) ==>
      s == UpdateStep(CheckFields(command.title, command.price), rows, None)
    ensures readFailure.None? && command.id in rows && ValidFields(command.title, command.price) ==>
      s.saveCall == Some(ProductRow(rows[command.id].id, command.title, command.description, command.price))
    ensures s.saveCall.Some? && saveSucceeds ==>
      s.outcome == Pass && s.rows == rows[s.saveCall.value.id := s.saveCall.value]
    ensures s.saveCall.Some? && !saveSucceeds ==>
      s.outcome == Fail(Error(UPDATE_FAILED)) && s.rows == rows
    ensures KeyedById(rows) ==> KeyedById(s.rows) && s.rows.Keys == rows.Keys
    ensures KeyedById(rows) ==>
      forall k | k in rows && k != command.id :: s.rows[k] == rows[k]
  {
    if readFailure.Some? then
      UpdateStep(Fail(readFailure.value), rows, None)
    else if command.id !in rows then
      UpdateStep(Fail(Error(NOT_FOUND)), rows, None)
    else
      match Updated(rows[command.id], command.title, command.description, command.price)
      case Err(e) => UpdateStep(Fail(e), rows, None)
      case Ok(row) =>
        if saveSucceeds then UpdateStep(Pass, rows[row.id := row], Some(row))
        else UpdateStep(Fail(Error(UPDATE_FAILED)), rows, Some(row))
  }

  /** An in-memory repository keyed by product id: its rows, the error its
      reads reject with (`None` when reads succeed), whether its writes
      succeed, and (ghost) every row ever passed to `Save`. */
  class ProductStore {
    var rows: map<int, ProductRow>
    var readFailure: Option<Error>
    var acceptsWrites: bool
    ghost var saveCalls: seq<ProductRow>

    constructor (rows: map<int, ProductRow>, readFailure: Option<Error>, acceptsWrites: bool)
      ensures this.rows == rows && this.readFailure == readFailure && this.acceptsWrites == acceptsWrites
      ensures saveCalls == []
    {
      this.rows := rows;
      this.readFailure := readFailure;
      this.acceptsWrites := acceptsWrites;
      saveCalls := [];
    }

    /** `findOneById(id)`: rejects with the store's read error, or resolves
        to a fresh entity built from the row stored under `id`, or to `null`
        when there is none. */
    method FindOneById(id: int) returns (r: Result<Product?>)
      ensures readFailure.Some? ==> r == Err(readFailure.value)
      ensures readFailure.None? ==> r.Ok? && (r.value == null <==> id !in rows)
      ensures r.Ok? && r.value != null ==> fresh(r.value) && r.value.Row() == rows[id]
    {
      if readFailure.Some? {
        r := Err(readFailure.value);
      } else if id in rows {
        var p := new Product.FromRow(rows[id]);
        r := Ok(p);
      } else {
        r := Ok(null);
      }
    }

    /** `save(product)`: resolves and writes the product under its id, or
        rejects and keeps the store. */
    method Save(p: Product) returns (ok: bool)
      modifies this
      ensures ok == old(acceptsWrites) && acceptsWrites == old(acceptsWrites)
      ensures readFailure == old(readFailure)
      ensures rows == if ok then old(rows)[p.id := p.Row()] else old(rows)
      ensures saveCalls == old(saveCalls) + [p.Row()]
    {
      ok := acceptsWrites;
      if ok {
        rows := rows[p.id := p.Row()];
      }
      saveCalls := saveCalls + [p.Row()];
    }
  }

  class UpdateProductUsecase {
    /** Assigned once, by the constructor. */
    const productRepository: ProductStore

    constructor (productRepository: ProductStore)
      ensures this.productRepository == productRepository
    {
      this.productRepository := productRepository;
    }

    method Execute(command: UpdateProductCommand) returns (r: Outcome)
      modifies productRepository
      ensures var s := UpdateProductSpec(old(productRepository.rows), old(productRepository.readFailure),
                                         old(productRepository.acceptsWrites), command);
        && r == s.outcome
        && productRepository.rows == s.rows
        && productRepository.saveCalls == old(productRepository.saveCalls) +
             (if s.saveCall.Some? then [s.saveCall.value] else [])
      ensures productRepository.acceptsWrites == old(productRepository.acceptsWrites)
      ensures productRepository.readFailure == old(productRepository.readFailure)
    {
      // The lookup sits outside the `try`: its rejection escapes unchanged.
      var found := productRepository.FindOneById(command.id);
      if found.Err? {
        return Fail(found.error);
      }
      var product := found.value;
      if product == null {
        return Fail(Error(NOT_FOUND));
      }
      var updated := product.Update(command.title, command.description, command.price);
      if updated.Fail? {
        return updated;
      }
      var ok := productRepository.Save(product);
      if ok {
        r := Pass;
      } else {
        r := Fail(Error(UPDATE_FAILED));
      }
    }
  }

  // Any number of update requests against one store.

  datatype UpdateRequest = UpdateRequest(command: UpdateProductCommand, readFailure: Option<Error>, saveSucceeds: bool)

  /** The stored rows after serving `requests` in turn. */
  function ReplayUpdates(rows: map<int, ProductRow>, requests: seq<UpdateRequest>): map<int, ProductRow>
    decreases |requests|
  {
    if requests == [] then rows
    else
      var q := requests[0];
      ReplayUpdates(UpdateProductSpec(rows, q.readFailure, q.saveSucceeds, q.command).rows, requests[1..])
  }

  /** A catalogue: keyed by id, every product satisfying the invariant. */
  predicate ValidCatalogue(rows: map<int, ProductRow>) {
    KeyedById(rows) && forall k | k in rows :: ValidRow(rows[k])
  }

  /** Updates never add or remove a product, never change an id, and never
      leave a product breaking the invariant, whatever the requests. */
  lemma {:induction false} ReplayKeepsCatalogue(rows: map<int, ProductRow>, requests: seq<UpdateRequest>)
    requires ValidCatalogue(rows)
    ensures ReplayUpdates(rows, requests).Keys == rows.Keys
    ensures ValidCatalogue(ReplayUpdates(rows, requests))
    decreases |requests|
  {
    if requests != [] {
      var q := requests[0];
      var s := UpdateProductSpec(rows, q.readFailure, q.saveSucceeds, q.command);
      assert ValidCatalogue(s.rows);
      ReplayKeepsCatalogue(s.rows, requests[1..]);
    }
  }

  /** The store of the use-case test: product 2, "switch", priced 3000. */
  function SwitchCatalogue(): (rows: map<int, ProductRow>)
    ensures ValidCatalogue(rows) && rows.Keys == {2}
  {
    map[2 := ProductRow(2, "switch", "console de jeu", 3000.0)]
  }

  /** The three scenarios of the use-case test. */
  lemma SwitchScenarios()
    ensures UpdateProductSpec(SwitchCatalogue(), None, true, UpdateProductCommand(2, "switch 3", "nouvelle nouvelle console", 5000.0)).rows ==
      map[2 := ProductRow(2, "switch 3", "nouvelle nouvelle console", 5000.0)]
    ensures UpdateProductSpec(SwitchCatalogue(), None, true, UpdateProductCommand(2, "sw", "nouvelle nouvelle console", 5000.0)).outcome ==
      Fail(Error(TITLE_TOO_SHORT))
    ensures UpdateProductSpec(SwitchCatalogue(), None, true, UpdateProductCommand(2, "switch 3", "nouvelle nouvelle console", -10.0)).outcome ==
      Fail(Error(PRICE_TOO_LOW))
  {
  }

  /** The use-case test run through the method contracts alone, plus a
      store whose reads reject, whose error reaches the caller unchanged. */
  method UpdateProductClient(readError: Error)
    returns (tooShort: Outcome, missing: Outcome, updated: Outcome, stored: ProductRow, unreadable: Outcome)
    ensures tooShort == Fail(Error(TITLE_TOO_SHORT))
    ensures missing == Fail(Error(NOT_FOUND))
    ensures updated == Pass
    ensures stored == ProductRow(2, "switch 3", "nouvelle nouvelle console", 5000.0)
    ensures unreadable == Fail(readError)
  {
    var store := new ProductStore(SwitchCatalogue(), None, true);
    var useCase := new UpdateProductUsecase(store);
    tooShort := useCase.Execute(UpdateProductCommand(2, "sw", "nouvelle nouvelle console", 5000.0));
    missing := useCase.Execute(UpdateProductCommand(7, "switch 3", "nouvelle nouvelle console", 5000.0));
    assert store.saveCalls == [];
    updated := useCase.Execute(UpdateProductCommand(2, "switch 3", "nouvelle nouvelle console", 5000.0));
    stored := store.rows[2];
    var failing := new ProductStore(SwitchCatalogue(), Some(readError), true);
    var failingUseCase := new UpdateProductUsecase(failing);
    unreadable := failingUseCase.Execute(UpdateProductCommand(2, "switch 3", "nouvelle nouvelle console", 5000.0));
    assert failing.saveCalls == [];
  }
}
