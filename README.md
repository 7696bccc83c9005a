# Shop back end: REST resources, merge-patch and entity associations

This project models the core of a small shop back end: customers, product
categories, shopping carts and product orders, served by REST resources.
It has three parts.

- **The REST resources** (`rest.dfy`). `Rest.Resource` is a class that holds
  the repository as a `map<Id, Entity>` together with the id sequence.
  - Its methods are the controller operations: create (POST), update (PUT),
    partial update (PATCH), get and delete.
  - Each one answers with an `Outcome`: 201, 200, 400 with a reason, 404 or 204.
  - Update and partial update run the same identity guards, in the same order:
    a null body id (`idnull`), then a path id different from the body id
    (`idinvalid`, an absent path id included), then an id unknown to the
    repository (`idnotfound`).
  - CustomerDetailsResource and ProductCategoryResource share this logic
    line for line, so one class, fixed to one kind of entity, models both.
- **Validation and merge-patch** (`entities.dfy`, `merge_patch.dfy`).
  - Each entity is a value whose scalar fields are `Option`s. `None` is a
    Java `null`.
  - A per-kind field table says which fields are required. Bean validation
    (`Entities.Missing`) lists the required fields left null.
  - `MergePatch.Merge` takes every non-null field of a patch and keeps every
    other field of the stored entity.
  - `resource_it.dfy` replays the integration tests against the resource
    model. Each test starts from an empty repository and checks the outcomes
    and repository counts the test asserts.
- **The entity classes as objects** (`domain.dfy`).
  - A customer holds a set of carts, and each cart points back at its
    customer. A cart holds a set of orders, and each order points back at
    its cart.
  - `addX`, `removeX` and the bulk setters keep both sides in step. The
    ghost predicates `CartsLinked` and `OrdersLinked` state the invariant
    "o ∈ c.orders ⇔ o.cart == c", and each method states when it preserves it.
  - Equality is equality of non-null ids.
  - The entity classes themselves are not part of this model. Their
    behaviour is taken from the unit tests ShoppingCartTest and
    CustomerDetailsTest.

The model follows the controller code in these points:

- Bean validation (`@Valid`) runs before the controller body. A create or
  update with a required field left null is therefore a 400 before any id
  check runs.
- A PATCH body is only `@NotNull`. Its fields are not validated.
- A PUT or PATCH of an id the repository does not know is a 400
  (`idnotfound`), never a 404.
- The 404 branch of PATCH (`wrapOrNotFound` of an empty service result)
  cannot be reached once the existence guard has passed. It is modelled all
  the same.
- Delete has no existence check: it answers 204 whatever the id, and it has
  no 404 and no 409.

## Model

| member | source | states |
|---|---|---|
| Entities.WithId | src/main/java/com/mycompany/app/web/rest/CustomerDetailsResource.java:64-67 | the entity with its id replaced keeps its kind and every scalar field, and carries exactly the new id; it is the same entity when the id does not change |
| Entities.WithIdRestores | src/main/java/com/mycompany/app/web/rest/CustomerDetailsResource.java:64-67 | giving an entity a new id and then its old id back restores the entity exactly |
| Entities.Schema | src/main/webapp/app/shared/model/shopping-cart.model.ts:6-14 | the field table behind bean validation: field names are distinct, and a field is nullable exactly when it is a category's description, a customer's addressLine2 or a cart's paymentReference |
| Entities.Row | src/main/webapp/app/shared/model/shopping-cart.model.ts:6-14 | an entity's scalar fields as a row, well typed against its kind's field table |
| Entities.FromRow | src/main/webapp/app/shared/model/shopping-cart.model.ts:6-14 | rebuilding an entity from a well-typed row keeps its kind and id and gives back exactly that row (the inverse of Row) |
| Entities.RowDetermines | src/main/webapp/app/shared/model/product-category.model.ts:1-5 | two entities of one kind with the same id and the same row are equal |
| Entities.MissingNames | src/test/java/com/mycompany/app/web/rest/ShoppingCartResourceIT.java:170-232 | a field's name is reported exactly when the field is required and null (both directions) |
| Entities.Missing | src/test/java/com/mycompany/app/web/rest/ProductOrderResourceIT.java:183-213 | validation reports nothing exactly when every required field is non-null |
| Entities.MissingFields | src/test/java/com/mycompany/app/web/rest/ShoppingCartResourceIT.java:170-232 | per entity: a category needs name; a customer needs phone, addressLine1, city and country; a cart needs placedDate, status, totalPrice and paymentMethod; an order needs quantity and totalPrice; each null required field is named in the report |
| MergePatch.MergeRow | src/main/java/com/mycompany/app/web/rest/CustomerDetailsResource.java:104-114 | field by field, the merged row holds the patch's value where it is non-null and the stored value elsewhere |
| MergePatch.Merge | src/main/java/com/mycompany/app/web/rest/CustomerDetailsResource.java:104-137 | the merged entity keeps the stored kind and id, and each field is the patch's non-null value or else the stored one |
| MergePatch.MergeFieldwise | src/main/java/com/mycompany/app/web/rest/ProductCategoryResource.java:104-137 | the merge written out per entity kind: every scalar field is taken from the patch when non-null, else kept |
| MergePatch.EmptyPatchIsIdentity | src/test/java/com/mycompany/app/web/rest/ProductCategoryResourceIT.java:259-286 | a patch with every field null leaves the stored entity unchanged |
| MergePatch.FullPatchReplaces | src/test/java/com/mycompany/app/web/rest/ShoppingCartResourceIT.java:399-430 | a patch with every field non-null yields exactly the patch's fields under the stored id, and the patch itself when the ids agree |
| MergePatch.SelfPatchIsIdentity | src/main/java/com/mycompany/app/web/rest/CustomerDetailsResource.java:104-114 | patching an entity with itself changes nothing |
| MergePatch.MergeIdempotent | src/main/java/com/mycompany/app/web/rest/CustomerDetailsResource.java:104-114 | applying the same patch twice gives the same result as applying it once |
| MergePatch.MergeCannotClear | src/main/java/com/mycompany/app/web/rest/CustomerDetailsResource.java:104-114 | a non-null stored field stays non-null after any patch (a patch cannot clear a field) |
| MergePatch.MergeKeepsRequired | src/main/java/com/mycompany/app/web/rest/ProductCategoryResource.java:104-137 | a stored entity that passes validation still passes it after any patch |
| MergePatch.CartPatchKeepsTotalPrice | src/test/java/com/mycompany/app/web/rest/ShoppingCartResourceIT.java:364-397 | a cart patch that supplies every field but totalPrice yields the supplied fields with the stored totalPrice |
| MergePatch.OrderPatchKeepsTotalPrice | src/test/java/com/mycompany/app/web/rest/ProductOrderResourceIT.java:351-380 | an order patch that supplies only quantity yields the new quantity with the stored totalPrice |
| Rest.IdentityGuard | src/main/java/com/mycompany/app/web/rest/CustomerDetailsResource.java:86-95 | idnull exactly when the body id is null; idinvalid exactly when the body id is set and differs from the path id; idnotfound exactly when they agree and the id is not stored; no rejection exactly when they agree and the id is stored |
| Rest.Find | src/main/java/com/mycompany/app/web/rest/CustomerDetailsResource.java:171 | the service's findOne returns an entity exactly when the id is stored, and then the stored entity |
| Rest.PatchedEntity | src/main/java/com/mycompany/app/web/rest/CustomerDetailsResource.java:131-136 | the service's partial update finds an entity exactly when the patch's id is non-null and stored, and the result is the stored entity merged with the patch |
| Rest.WrapOrNotFound | src/main/java/com/mycompany/app/web/rest/CustomerDetailsResource.java:133-136 | a present result is answered 200 with that entity, an absent one 404, and nothing else |
| Rest.Resource.Count | src/test/java/com/mycompany/app/web/rest/ShoppingCartResourceIT.java:502-504 | the repository count is zero exactly when nothing is stored |
| Rest.Resource.constructor | src/main/java/com/mycompany/app/web/rest/CustomerDetailsResource.java:45-48 | an empty repository of one entity kind whose sequence starts at the given id |
| Rest.Resource.Create | src/main/java/com/mycompany/app/web/rest/CustomerDetailsResource.java:57-68 | a null required field is a 400 naming the fields; otherwise a preset id is a 400 idexists; both leave the repository unchanged; otherwise the entity is stored under a fresh id not in use, returned as 201 with that id, and the count grows by one |
| Rest.Resource.Update | src/main/java/com/mycompany/app/web/rest/CustomerDetailsResource.java:80-101 | validation first, then the identity guards, each a 400 with nothing written; when all pass, the body replaces the stored entity under its id, is returned as 200, and the count is unchanged |
| Rest.Resource.PartialUpdate | src/main/java/com/mycompany/app/web/rest/CustomerDetailsResource.java:114-137 | the identity guards, each a 400 with nothing written; when all pass, the stored entity becomes its merge with the patch, returned as 200, and the count is unchanged |
| Rest.Resource.Get | src/main/java/com/mycompany/app/web/rest/CustomerDetailsResource.java:168-173 | 200 with the stored entity when the id is stored, 404 otherwise |
| Rest.Resource.Delete | src/main/java/com/mycompany/app/web/rest/CustomerDetailsResource.java:181-188 | always 204; the id is no longer stored, nothing else changes, and the count drops by one exactly when it was stored |
| ResourceIT.CreateGetDelete | src/test/java/com/mycompany/app/web/rest/ShoppingCartResourceIT.java:133-151 | a valid create returns 201 with the entity under its new id, a get returns what was created, a delete returns 204, and the counts go 0, 1, 0 |
| ResourceIT.CreateRejected | src/test/java/com/mycompany/app/web/rest/ShoppingCartResourceIT.java:153-232 | a create with a preset id or a null required field is a 400 and the count is unchanged; with all required fields present the reason is idexists |
| ResourceIT.PutExisting | src/test/java/com/mycompany/app/web/rest/ShoppingCartResourceIT.java:279-309 | a put on a stored id is 200, keeps the count at one, and the returned and persisted entity equals the request in every property: its scalar fields and its id |
| ResourceIT.UnknownId | src/test/java/com/mycompany/app/web/rest/ShoppingCartResourceIT.java:311-330 | a put or a patch of an id not stored is a 400 idnotfound, and nothing is stored |
| ResourceIT.IdMismatch | src/test/java/com/mycompany/app/web/rest/ShoppingCartResourceIT.java:332-347 | a put or a patch whose path id differs from the body id is a 400 idinvalid, and nothing is stored |
| ResourceIT.CategoryIdOnlyPatch | src/test/java/com/mycompany/app/web/rest/ProductCategoryResourceIT.java:259-286 | a category patch carrying only the id is 200 with the stored category unchanged, and the persisted category is unchanged |
| ResourceIT.OrderQuantityPatch | src/test/java/com/mycompany/app/web/rest/ProductOrderResourceIT.java:351-380 | an order patch carrying only quantity is 200 with the new quantity and the stored totalPrice, and the count stays one |
| ResourceIT.CartPartialPatch | src/test/java/com/mycompany/app/web/rest/ShoppingCartResourceIT.java:364-397 | a cart patch without totalPrice is 200 with every supplied field and the stored totalPrice, and the count stays one |
| Domain.CustomerDetails.constructor | src/test/java/com/mycompany/app/domain/CustomerDetailsTest.java:17-18 | a new customer has the given id and no carts |
| Domain.CustomerDetails.SetId | src/test/java/com/mycompany/app/domain/CustomerDetailsTest.java:21-22 | sets the id and leaves the carts as they were |
| Domain.CustomerDetails.AddCart | src/test/java/com/mycompany/app/domain/CustomerDetailsTest.java:33-35 | the cart joins the set and points back at this customer; the linked invariant is kept when the cart had no other owner |
| Domain.CustomerDetails.RemoveCart | src/test/java/com/mycompany/app/domain/CustomerDetailsTest.java:37-39 | the cart leaves the set and its back-reference to this customer is cleared; the linked invariant is kept |
| Domain.CustomerDetails.SetCarts | src/test/java/com/mycompany/app/domain/CustomerDetailsTest.java:45-47 | the set becomes exactly the given one; every new member points at this customer; a former member no longer in it loses its back-reference when that pointed at this customer; the linked invariant is kept when every new member had no owner or already belonged to this customer |
| Domain.CustomerDetails.WithCarts | src/test/java/com/mycompany/app/domain/CustomerDetailsTest.java:41-43 | the fluent bulk setter: the same effect as SetCarts, under the same ownership condition for the invariant, returning this customer |
| Domain.ShoppingCart.constructor | src/test/java/com/mycompany/app/domain/ShoppingCartTest.java:18-19 | a new cart has the given id, no orders and no customer |
| Domain.ShoppingCart.SetId | src/test/java/com/mycompany/app/domain/ShoppingCartTest.java:22-23 | sets the id and leaves both associations as they were |
| Domain.ShoppingCart.AddOrder | src/test/java/com/mycompany/app/domain/ShoppingCartTest.java:34-36 | the order joins the set and points back at this cart; the linked invariant is kept when the order had no other cart |
| Domain.ShoppingCart.RemoveOrder | src/test/java/com/mycompany/app/domain/ShoppingCartTest.java:38-40 | the order leaves the set and its back-reference to this cart is cleared; the linked invariant is kept |
| Domain.ShoppingCart.SetOrders | src/test/java/com/mycompany/app/domain/ShoppingCartTest.java:46-48 | the set becomes exactly the given one; every new member points at this cart; a former member no longer in it loses its back-reference when that pointed at this cart; the linked invariant is kept when every new member had no cart or already belonged to this cart |
| Domain.ShoppingCart.WithOrders | src/test/java/com/mycompany/app/domain/ShoppingCartTest.java:42-44 | the fluent bulk setter: the same effect as SetOrders, under the same ownership condition for the invariant, returning this cart |
| Domain.ShoppingCart.SetCustomerDetails | src/test/java/com/mycompany/app/domain/ShoppingCartTest.java:56-57 | stores the reference and touches no collection; from a linked state, the linked invariant still holds exactly when the new reference equals the old one, so any real change of customer breaks it |
| Domain.ShoppingCart.WithCustomerDetails | src/test/java/com/mycompany/app/domain/ShoppingCartTest.java:59-60 | the fluent form of SetCustomerDetails, with the same effect on the reference and on the linked invariant, returning this cart |
| Domain.ProductOrder.constructor | src/test/java/com/mycompany/app/domain/ShoppingCartTest.java:32 | a new order has the given id and no cart |
| Domain.CustomerDetails.Equals | src/test/java/com/mycompany/app/domain/CustomerDetailsTest.java:17-25 | two distinct customers are unequal when either id is null; with both ids set they are equal exactly when they are the same object or their ids are equal |
| Domain.ShoppingCart.Equals | src/test/java/com/mycompany/app/domain/ShoppingCartTest.java:18-26 | the same id-based equality for carts |
| Domain.ProductOrder.Equals | src/test/java/com/mycompany/app/domain/ShoppingCartTest.java:34-36 | the same id-based equality for orders, which decides membership of a cart's order set in the source |
| Domain.CartEqualsIsEquivalence | src/test/java/com/mycompany/app/domain/ShoppingCartTest.java:17 | cart equality is reflexive, symmetric and transitive |
| Domain.CustomerWithoutIdEqualsOnlyItself | src/test/java/com/mycompany/app/domain/CustomerDetailsTest.java:16-19 | a customer without an id is equal to itself and to no other customer, in either direction |
| Domain.OrderWithoutIdEqualsOnlyItself | src/test/java/com/mycompany/app/domain/ShoppingCartTest.java:34-36 | an order without an id is equal to itself and to no other order, in either direction |
| Domain.CartsHaveOneOwner | src/test/java/com/mycompany/app/domain/CustomerDetailsTest.java:33-47 | under the linked invariant, a cart is in the set of at most one customer |
| Domain.OrdersHaveOneCart | src/test/java/com/mycompany/app/domain/ShoppingCartTest.java:34-48 | under the linked invariant, an order is in the set of at most one cart |
| Domain.CartEqualsVerifier | src/test/java/com/mycompany/app/domain/ShoppingCartTest.java:16-27 | an id-less cart differs from one with an id, the same id makes them equal, and a different id makes them differ |
| Domain.CustomerEqualsVerifier | src/test/java/com/mycompany/app/domain/CustomerDetailsTest.java:15-26 | the same for customers |
| Domain.OrderTest | src/test/java/com/mycompany/app/domain/ShoppingCartTest.java:30-49 | add, remove, bulk set and bulk clear leave both sides as the test asserts after each step, ending unlinked with the invariant intact |
| Domain.CustomerReferenceTest | src/test/java/com/mycompany/app/domain/ShoppingCartTest.java:52-61 | setting and then clearing a cart's customer reference ends with no reference and no cart set changed |
| Domain.CartTest | src/test/java/com/mycompany/app/domain/CustomerDetailsTest.java:29-48 | the same add / remove / bulk set / bulk clear sequence on customer and cart, ending unlinked with the invariant intact |

## Left out

- HTTP plumbing is not modelled. This covers Location URIs, alert headers, `ResponseUtil`, pagination and sorting. The 405 for a missing path parameter is Spring routing.
- The list operations (`getAll…`) and the eager-load switch are not modelled. Both return the same entities, so the model cannot tell them apart.
- Transactions, caching and concurrent requests are not modelled. Every request runs alone and in full.
- Ids are unbounded integers, not 64-bit `Long` values with overflow.
- Prices (`BigDecimal`) are opaque integers. Dates (`Instant`) are opaque integers as well.
- Payment methods are taken as three opaque values. `PaymentMethod.java` is not part of this model.
- A customer's `gender` and `user` fields are not modelled. The customer's required fields come from the client model `customer-details.model.ts` (lines 4-13): phone, addressLine1, city and country.
- The Product entity and its resource are not part of this model.
- The entity values handled by the REST model carry only the id and the scalar fields. Associations live on the object classes of `Domain` only, so a PUT or PATCH does not show how links are stored.
- Entities.Missing: does not report required associations. In the source a cart must have a customer and an order must have a product and a cart (the tests build them as required entities), so a POST without one is a 400 there but passes validation in the model.
- The service classes, repositories and entity classes are not part of this model. The merge comes from the resource's documented contract and the integration tests. The association methods come from the unit tests.
- Domain.CustomerDetails.RemoveCart: clears the back-reference only when it points at this customer. The tests cannot tell this from an unconditional clear, because the removed cart always belongs to the customer.
- Domain.ShoppingCart.RemoveOrder: clears the back-reference only when it points at this cart. The tests cannot tell this from an unconditional clear, for the same reason.
- Domain.ShoppingCart.SetCustomerDetails: a plain assignment, as in the source. The old customer's cart set still lists the cart and the new customer's set does not gain it, so any change of customer leaves the customer / cart association one-sided.
- Domain.ShoppingCart.WithCustomerDetails: the same plain assignment; no customer's cart set is updated.
- Domain.CustomerDetails.AddCart: a previous owner of the cart is not told and keeps it in its set. The invariant is promised only when the cart had no other owner.
- Domain.CustomerDetails.SetCarts: keeps the linked invariant only when every new member had no owner or already belonged to this customer, because a previous owner is not told. A former member's back-reference is cleared only when it points at this customer, as in RemoveCart.
- Domain.CustomerDetails.WithCarts: the same two limits as SetCarts.
- Domain.ShoppingCart.SetOrders: keeps the linked invariant only when every new member had no cart or already belonged to this cart, because a previous cart is not told. A former member's back-reference is cleared only when it points at this cart, as in RemoveOrder.
- Domain.ShoppingCart.WithOrders: the same two limits as SetOrders.
- Domain.ShoppingCart.AddOrder: does not detach the order from a previous cart either. The invariant is promised only when the order had no other cart.
- Java `HashSet` membership uses `equals` and `hashCode`, that is ids. The model's sets hold object references, so two objects with the same id are two members.
- A PATCH with a null body is rejected by `@NotNull` before the controller runs. The model always has a body.
- The equality verifier's hash-code checks (`TestUtil.equalsVerifier`) are not modelled. Only `equals` is.
