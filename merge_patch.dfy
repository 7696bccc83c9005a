/**
 * Partial update ("merge-patch"): every field the patch supplies replaces the
 * stored one, every field it leaves null is kept. The patch is an entity of the
 * same type as the stored one, so null means both "not supplied" and "null":
 * a patch can never clear a field.
 *
 * The merge is written once, over the field rows of the descriptor table, and
 * read back into an entity of the stored entity's kind and id.
 */
module MergePatch {
  import opened Wrappers
  import opened Entities

  /** The supplied value if there is one, else the kept one. */
  function Pick<T>(supplied: Option<T>, kept: Option<T>): Option<T> {
    if supplied.Some? then supplied else kept
  }

  /** Field-by-field merge of two rows of the same schema. */
  function MergeRow(stored: seq<Field>, patch: seq<Field>): (r: seq<Field>)
    requires |stored| == |patch|
    ensures |r| == |stored|
    ensures forall i :: 0 <= i < |r| ==> r[i] == if patch[i].Some? then patch[i] else stored[i]
  {
    if stored == [] then []
    else [Pick(patch[0], stored[0])] + MergeRow(stored[1..], patch[1..])
  }

  /** The entity a partial update persists: `stored` with every field `patch` supplies replaced. */
  function Merge(stored: Entity, patch: Entity): (r: Entity)
    requires KindOf(stored) == KindOf(patch)
    ensures KindOf(r) == KindOf(stored) && r.id == stored.id
    ensures |Row(r)| == |Row(stored)| == |Row(patch)|
    ensures forall i :: 0 <= i < |Row(r)| ==> Row(r)[i] == if Row(patch)[i].Some? then Row(patch)[i] else Row(stored)[i]
  {
    var row := MergeRow(Row(stored), Row(patch));
    assert WellTyped(KindOf(stored), row) by {
      assert forall i :: 0 <= i < |row| ==> row[i] == Row(patch)[i] || row[i] == Row(stored)[i];
    }
    FromRow(stored, row)
  }

  /** The merge stated on the named fields of each entity. */
  lemma MergeFieldwise(stored: Entity, patch: Entity)
    requires KindOf(stored) == KindOf(patch)
    ensures stored.ProductCategory? ==>
      Merge(stored, patch) == ProductCategory(stored.id, Pick(patch.name, stored.name), Pick(patch.description, stored.description))
    ensures stored.CustomerDetails? ==>
      Merge(stored, patch) == CustomerDetails(stored.id, Pick(patch.phone, stored.phone),
        Pick(patch.addressLine1, stored.addressLine1), Pick(patch.addressLine2, stored.addressLine2),
        Pick(patch.city, stored.city), Pick(patch.country, stored.country))
    ensures stored.ShoppingCart? ==>
      Merge(stored, patch) == ShoppingCart(stored.id, Pick(patch.placedDate, stored.placedDate),
        Pick(patch.status, stored.status), Pick(patch.totalPrice, stored.totalPrice),
        Pick(patch.paymentMethod, stored.paymentMethod), Pick(patch.paymentReference, stored.paymentReference))
    ensures stored.ProductOrder? ==>
      Merge(stored, patch) == ProductOrder(stored.id, Pick(patch.quantity, stored.quantity), Pick(patch.totalPrice, stored.totalPrice))
  {
    var r := Merge(stored, patch);
    match stored
    case ProductCategory(id, _, _) =>
      var expected := ProductCategory(id, Pick(patch.name, stored.name), Pick(patch.description, stored.description));
      assert Row(r) == Row(expected);
      RowDetermines(r, expected);
    case CustomerDetails(id, _, _, _, _, _) =>
      var expected := CustomerDetails(id, Pick(patch.phone, stored.phone), Pick(patch.addressLine1, stored.addressLine1),
        Pick(patch.addressLine2, stored.addressLine2), Pick(patch.city, stored.city), Pick(patch.country, stored.country));
      assert Row(r) == Row(expected);
      RowDetermines(r, expected);
    case ShoppingCart(id, _, _, _, _, _) =>
      var expected := ShoppingCart(id, Pick(patch.placedDate, stored.placedDate), Pick(patch.status, stored.status),
        Pick(patch.totalPrice, stored.totalPrice), Pick(patch.paymentMethod, stored.paymentMethod),
        Pick(patch.paymentReference, stored.paymentReference));
      assert Row(r) == Row(expected);
      RowDetermines(r, expected);
    case ProductOrder(id, _, _) =>
      var expected := ProductOrder(id, Pick(patch.quantity, stored.quantity), Pick(patch.totalPrice, stored.totalPrice));
      assert Row(r) == Row(expected);
      RowDetermines(r, expected);
  }

  /** A patch that supplies no field (only the id) leaves the stored entity as it is. */
  lemma EmptyPatchIsIdentity(stored: Entity, patch: Entity)
    requires KindOf(stored) == KindOf(patch)
    requires forall i :: 0 <= i < |Row(patch)| ==> Row(patch)[i].None?
    ensures Merge(stored, patch) == stored
  {
    RowDetermines(Merge(stored, patch), stored);
  }

  /** A patch that supplies every field yields the patch itself, under the stored id. */
  lemma FullPatchReplaces(stored: Entity, patch: Entity)
    requires KindOf(stored) == KindOf(patch)
    requires forall i :: 0 <= i < |Row(patch)| ==> Row(patch)[i].Some?
    ensures Merge(stored, patch) == FromRow(stored, Row(patch))
    ensures patch.id == stored.id ==> Merge(stored, patch) == patch
  {
    RowDetermines(Merge(stored, patch), FromRow(stored, Row(patch)));
    if patch.id == stored.id {
      RowDetermines(Merge(stored, patch), patch);
    }
  }

  /** Patching an entity with its own values changes nothing. */
  lemma SelfPatchIsIdentity(stored: Entity)
    ensures Merge(stored, stored) == stored
  {
    RowDetermines(Merge(stored, stored), stored);
  }

  /** Applying the same patch twice is the same as applying it once. */
  lemma MergeIdempotent(stored: Entity, patch: Entity)
    requires KindOf(stored) == KindOf(patch)
    ensures Merge(Merge(stored, patch), patch) == Merge(stored, patch)
  {
    var once := Merge(stored, patch);
    RowDetermines(Merge(once, patch), once);
  }

  /** A patch cannot clear a field: a non-null stored field stays non-null. */
  lemma MergeCannotClear(stored: Entity, patch: Entity, i: nat)
    requires KindOf(stored) == KindOf(patch)
    requires i < |Row(stored)| && Row(stored)[i].Some?
    ensures Row(Merge(stored, patch))[i].Some?
  {
  }

  /** So a patch of a valid entity is valid: every required field stays set. */
  lemma MergeKeepsRequired(stored: Entity, patch: Entity)
    requires KindOf(stored) == KindOf(patch)
    requires Missing(stored) == []
    ensures Missing(Merge(stored, patch)) == []
  {
  }

  /** A cart patch that supplies everything except totalPrice keeps the stored totalPrice. */
  lemma CartPatchKeepsTotalPrice(stored: Entity, patch: Entity)
    requires stored.ShoppingCart? && patch.ShoppingCart?
    requires patch.placedDate.Some? && patch.status.Some? && patch.paymentMethod.Some?
    requires patch.paymentReference.Some? && patch.totalPrice.None?
    ensures Merge(stored, patch) == ShoppingCart(stored.id, patch.placedDate, patch.status,
      stored.totalPrice, patch.paymentMethod, patch.paymentReference)
  {
    MergeFieldwise(stored, patch);
  }

  /** An order patch that supplies only the quantity keeps the stored totalPrice. */
  lemma OrderPatchKeepsTotalPrice(stored: Entity, patch: Entity)
    requires stored.ProductOrder? && patch.ProductOrder?
    requires patch.quantity.Some? && patch.totalPrice.None?
    ensures Merge(stored, patch) == ProductOrder(stored.id, patch.quantity, stored.totalPrice)
  {
    MergeFieldwise(stored, patch);
  }
}
