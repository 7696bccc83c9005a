/**
 * The resource integration tests replayed against the Resource model: each
 * method starts from an empty repository, issues the test's requests and
 * returns what the test observes (outcomes and repository counts).
 */
module ResourceIT {
  import opened Wrappers
  import opened Entities
  import opened Rest
  import MergePatch

  /** A valid create adds one entity, persisted as returned; a delete of it removes it again. */
  method CreateGetDelete(e: Entity) returns (created: Outcome, fetched: Outcome, deleted: Outcome, counts: seq<nat>)
    requires e.id.None? && Missing(e) == []
    ensures created.Created? && created.body == WithId(e, Some(created.id))
    ensures fetched == Ok(created.body) && deleted == NoContent
    ensures counts == [0, 1, 0]
  {
    var repository := new Resource(KindOf(e), 1);
    var before := repository.Count();
    created := repository.Create(e);
    var afterCreate := repository.Count();
    fetched := repository.Get(created.id);
    deleted := repository.Delete(created.id);
    counts := [before, afterCreate, repository.Count()];
  }

  /** Create with a preset id, or with a required field null, is a 400 and stores nothing. */
  method CreateRejected(e: Entity) returns (r: Outcome, countBefore: nat, countAfter: nat)
    requires e.id.Some? || Missing(e) != []
    ensures r.BadRequest? && countAfter == countBefore
    ensures Missing(e) == [] ==> r == BadRequest(IdExists)
  {
    var repository := new Resource(KindOf(e), 1);
    countBefore := repository.Count();
    r := repository.Create(e);
    countAfter := repository.Count();
  }

  /** Put of an existing entity keeps the count and persists the request in all properties. */
  method PutExisting(e: Entity, updated: Entity) returns (put: Outcome, persisted: Outcome, countBefore: nat, countAfter: nat)
    requires e.id.None? && Missing(e) == []
    requires KindOf(updated) == KindOf(e) && Missing(updated) == []
    ensures put.Ok? && persisted == put && countAfter == countBefore == 1
    ensures Row(put.body) == Row(updated)
    ensures put.body.id.Some? && put.body == WithId(updated, put.body.id)
  {
    var repository := new Resource(KindOf(e), 1);
    var created := repository.Create(e);
    countBefore := repository.Count();
    var request := WithId(updated, Some(created.id));
    put := repository.Update(Some(created.id), request);
    countAfter := repository.Count();
    persisted := repository.Get(created.id);
  }

  /** Put or patch of an id the store does not know is a 400 (not a 404), and stores nothing. */
  method UnknownId(e: Entity) returns (put: Outcome, patch: Outcome, count: nat)
    requires e.id.Some? && Missing(e) == []
    ensures put == BadRequest(IdNotFound) && patch == BadRequest(IdNotFound) && count == 0
  {
    var repository := new Resource(KindOf(e), 1);
    put := repository.Update(e.id, e);
    patch := repository.PartialUpdate(e.id, e);
    count := repository.Count();
  }

  /** Put or patch whose path id differs from the body id is a 400, and stores nothing. */
  method IdMismatch(e: Entity, pathId: Id) returns (put: Outcome, patch: Outcome, count: nat)
    requires e.id.Some? && e.id != Some(pathId) && Missing(e) == []
    ensures put == BadRequest(IdInvalid) && patch == BadRequest(IdInvalid) && count == 0
  {
    var repository := new Resource(KindOf(e), 1);
    put := repository.Update(Some(pathId), e);
    patch := repository.PartialUpdate(Some(pathId), e);
    count := repository.Count();
  }

  /** A category patch carrying only the id leaves the stored category as it was. */
  method CategoryIdOnlyPatch(name: string, description: Option<string>) returns (stored: Outcome, patched: Outcome, persisted: Outcome)
    ensures stored.Created? && patched == Ok(stored.body) && persisted == Ok(stored.body)
  {
    var repository := new Resource(CategoryKind, 1);
    stored := repository.Create(ProductCategory(None, Some(name), description));
    var patch := ProductCategory(Some(stored.id), None, None);
    MergePatch.EmptyPatchIsIdentity(stored.body, patch);
    patched := repository.PartialUpdate(Some(stored.id), patch);
    persisted := repository.Get(stored.id);
  }

  /** An order patch supplying only the quantity changes it and keeps the stored totalPrice. */
  method OrderQuantityPatch(quantity: int, totalPrice: int, newQuantity: int) returns (patched: Outcome, count: nat)
    ensures patched.Ok? && patched.body.ProductOrder?
    ensures patched.body.quantity == Some(newQuantity) && patched.body.totalPrice == Some(totalPrice)
    ensures count == 1
  {
    var repository := new Resource(OrderKind, 1);
    var created := repository.Create(ProductOrder(None, Some(quantity), Some(totalPrice)));
    var patch := ProductOrder(Some(created.id), Some(newQuantity), None);
    MergePatch.OrderPatchKeepsTotalPrice(created.body, patch);
    patched := repository.PartialUpdate(Some(created.id), patch);
    count := repository.Count();
  }

  /** A cart patch supplying every field but totalPrice takes them and keeps the stored totalPrice. */
  method CartPartialPatch(cart: Entity, patch: Entity) returns (patched: Outcome, count: nat)
    requires cart.ShoppingCart? && cart.id.None? && Missing(cart) == []
    requires patch.ShoppingCart? && patch.totalPrice.None?
    requires patch.placedDate.Some? && patch.status.Some? && patch.paymentMethod.Some? && patch.paymentReference.Some?
    ensures patched.Ok? && patched.body.ShoppingCart?
    ensures patched.body.totalPrice == cart.totalPrice
    ensures patched.body.placedDate == patch.placedDate && patched.body.status == patch.status
    ensures patched.body.paymentMethod == patch.paymentMethod && patched.body.paymentReference == patch.paymentReference
    ensures count == 1
  {
    var repository := new Resource(CartKind, 1);
    var created := repository.Create(cart);
    var request := WithId(patch, Some(created.id));
    MergePatch.CartPatchKeepsTotalPrice(created.body, request);
    patched := repository.PartialUpdate(Some(created.id), request);
    count := repository.Count();
  }
}
