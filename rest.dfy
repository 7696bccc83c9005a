/**
 * The REST resources over an id-keyed store. CustomerDetailsResource and
 * ProductCategoryResource have the same create / update / partial update /
 * get / delete logic line for line; one `Resource` class, fixed to one kind
 * of entity, models both.
 */
module Rest {
  import opened Wrappers
  import opened Entities
  import MergePatch

  /** Why a request is answered 400 Bad Request. */
  datatype Reason =
    | IdExists                       // "idexists": a new entity already has an id
    | IdNull                         // "idnull": the body of an update has no id
    | IdInvalid                      // "idinvalid": the path id differs from the body id
    | IdNotFound                     // "idnotfound": no stored entity has that id
    | FieldsMissing(names: seq<string>)  // bean validation: required fields left null

  datatype Outcome =
    | Created(id: Id, body: Entity)  // 201
    | Ok(body: Entity)               // 200
    | BadRequest(reason: Reason)     // 400
    | NotFound                       // 404
    | NoContent                      // 204

  /**
   * The identity guards an update or a partial update runs before touching the
   * store, in their order: a null body id, then a path id that differs from it
   * (an absent path id included), then an id the store does not know.
   */
  function IdentityGuard(pathId: Option<Id>, bodyId: Option<Id>, store: map<Id, Entity>): (r: Option<Reason>)
    ensures r == Some(IdNull) <==> bodyId.None?
    ensures r == Some(IdInvalid) <==> bodyId.Some? && pathId != bodyId
    ensures r == Some(IdNotFound) <==> bodyId.Some? && pathId == bodyId && bodyId.value !in store
    ensures r == None <==> bodyId.Some? && pathId == bodyId && bodyId.value in store
  {
    if bodyId.None? then Some(IdNull)
    else if pathId != bodyId then Some(IdInvalid)
    else if bodyId.value !in store then Some(IdNotFound)
    else None
  }

  /** The stored entity under `id`, as the service's findOne returns it. */
  function Find(store: map<Id, Entity>, id: Id): (r: Option<Entity>)
    ensures r.Some? <==> id in store
    ensures r.Some? ==> r.value == store[id]
  {
    if id in store then Some(store[id]) else None
  }

  /** The service's partial update: find the stored entity and merge the patch into it. */
  function PatchedEntity(store: map<Id, Entity>, patch: Entity): (r: Option<Entity>)
    requires forall k | k in store :: KindOf(store[k]) == KindOf(patch)
    ensures r.Some? <==> patch.id.Some? && patch.id.value in store
    ensures r.Some? ==> KindOf(store[patch.id.value]) == KindOf(patch)
                        && r.value == MergePatch.Merge(store[patch.id.value], patch)
  {
    match patch.id
    case Some(key) =>
      if key in store then
        assert KindOf(store[key]) == KindOf(patch);
        Some(MergePatch.Merge(store[key], patch))
      else None
    case None => None
  }

  /** 200 with the entity when there is one, 404 otherwise. */
  function WrapOrNotFound(found: Option<Entity>): (r: Outcome)
    ensures r.Ok? <==> found.Some?
    ensures r.NotFound? <==> found.None?
    ensures r.Ok? ==> r.body == found.value
  {
    if found.Some? then Ok(found.value) else NotFound
  }

  class Resource {
    /** The entity type the resource serves. */
    const kind: Kind
    /** The repository: every persisted entity under its id. */
    var store: map<Id, Entity>
    /** The next id the store's sequence hands out. */
    var nextId: Id

    /** Every stored entity is of this resource's kind, carries its own key as id, and the key is below the sequence. */
    ghost predicate Valid()
      reads this
    {
      forall k | k in store :: store[k].id == Some(k) && KindOf(store[k]) == kind && k < nextId
    }

    /** The repository count the tests compare before and after each request. */
    function Count(): (n: nat)
      reads this
      ensures n == 0 <==> store == map[]
    {
      |store|
    }

    constructor (kind: Kind, firstId: Id)
      ensures Valid() && this.kind == kind && store == map[] && nextId == firstId
    {
      this.kind := kind;
      store := map[];
      nextId := firstId;
    }

    /** POST: validate the body, reject a preset id, else persist it under a fresh id. */
    method Create(e: Entity) returns (r: Outcome)
      requires Valid() && KindOf(e) == kind
      modifies this
      ensures Valid()
      ensures Missing(e) != [] ==> r == BadRequest(FieldsMissing(Missing(e))) && unchanged(this)
      ensures Missing(e) == [] && e.id.Some? ==> r == BadRequest(IdExists) && unchanged(this)
      ensures Missing(e) == [] && e.id.None? ==>
        && r == Created(old(nextId), WithId(e, Some(old(nextId))))
        && r.id !in old(store)
        && store == old(store)[r.id := r.body]
        && Count() == old(Count()) + 1
    {
      var missing := Missing(e);
      if missing != [] {
        return BadRequest(FieldsMissing(missing));
      }
      if e.id.Some? {
        return BadRequest(IdExists);
      }
      var id := nextId;
      var saved := WithId(e, Some(id));
      store := store[id := saved];
      nextId := nextId + 1;
      r := Created(id, saved);
    }

    /** PUT: validate the body, run the identity guards, else replace the stored entity with the body. */
    method Update(pathId: Option<Id>, e: Entity) returns (r: Outcome)
      requires Valid() && KindOf(e) == kind
      modifies this
      ensures Valid()
      ensures Missing(e) != [] ==> r == BadRequest(FieldsMissing(Missing(e))) && unchanged(this)
      ensures Missing(e) == [] && IdentityGuard(pathId, e.id, old(store)).Some? ==>
        r == BadRequest(IdentityGuard(pathId, e.id, old(store)).value) && unchanged(this)
      ensures Missing(e) == [] && IdentityGuard(pathId, e.id, old(store)).None? ==>
        && r == Ok(e)
        && store == old(store)[e.id.value := e] && nextId == old(nextId)
        && Count() == old(Count())
    {
      var missing := Missing(e);
      if missing != [] {
        return BadRequest(FieldsMissing(missing));
      }
      var guard := IdentityGuard(pathId, e.id, store);
      if guard.Some? {
        return BadRequest(guard.value);
      }
      store := store[e.id.value := e];
      r := Ok(e);
    }

    /** PATCH: run the identity guards, else merge the patch into the stored entity and persist the result. */
    method PartialUpdate(pathId: Option<Id>, patch: Entity) returns (r: Outcome)
      requires Valid() && KindOf(patch) == kind
      modifies this
      ensures Valid()
      ensures IdentityGuard(pathId, patch.id, old(store)).Some? ==>
        r == BadRequest(IdentityGuard(pathId, patch.id, old(store)).value) && unchanged(this)
      ensures IdentityGuard(pathId, patch.id, old(store)).None? ==>
        var key := patch.id.value;
        assert KindOf(old(store)[key]) == kind;
        var merged := MergePatch.Merge(old(store)[key], patch);
        && r == Ok(merged)
        && store == old(store)[patch.id.value := merged] && nextId == old(nextId)
        && Count() == old(Count())
    {
      var guard := IdentityGuard(pathId, patch.id, store);
      if guard.Some? {
        return BadRequest(guard.value);
      }
      var result := PatchedEntity(store, patch);
      if result.Some? {
        store := store[patch.id.value := result.value];
      }
      r := WrapOrNotFound(result);
    }

    /** GET by id: the stored entity, or 404. */
    method Get(id: Id) returns (r: Outcome)
      ensures id in store ==> r == Ok(store[id])
      ensures id !in store ==> r == NotFound
    {
      r := WrapOrNotFound(Find(store, id));
    }

    /** DELETE: remove whatever is stored under `id`; always 204, with no existence check. */
    method Delete(id: Id) returns (r: Outcome)
      requires Valid()
      modifies this
      ensures Valid()
      ensures r == NoContent
      ensures store == old(store) - {id} && nextId == old(nextId)
      ensures Count() == if id in old(store) then old(Count()) - 1 else old(Count())
    {
      store := store - {id};
      r := NoContent;
    }
  }
}
