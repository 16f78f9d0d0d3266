/** backend/routes/properties.js: role-scoped listing, creation, the ownership checks of a
    read by id, update and deletion (which does not cascade to tenancies). */
module Properties {
  import opened Common
  import opened Seqs
  import opened Records
  import Tenants

  /** The body of `POST /`: `rentAmount` is `None` when it is not numeric, `landlord` when it
      is not an ObjectId; `manager` and `description` are cast by the schema on save. */
  datatype PropertyRequest = PropertyRequest(name: string, address: string,
                                             rentAmount: Option<int>, landlord: Option<Id>,
                                             manager: Field<Id>, description: Field<string>)

  /** The body of `PUT /:id`, as `findByIdAndUpdate` with `runValidators` sees it;
      `Given(None)` clears an optional field. */
  datatype PropertyPatch = PropertyPatch(name: Field<string>, address: Field<string>,
                                         landlord: Field<Id>, manager: Field<Option<Id>>,
                                         rentAmount: Field<int>, description: Field<Option<string>>)

  // ---------------------------------------------------------------------------------------
  // GET /

  /** `GET /`: landlords and managers see the properties they own or manage, an admin sees
      all of them, and tenants and every other role get 403. */
  function ListProperties(db: Db, caller: Caller): (r: Outcome<seq<Property>>)
    ensures caller.role == Admin ==> r == Ok(db.properties)
    ensures caller.role == TenantRole || caller.role.OtherRole? ==> r == Forbidden
    ensures r.Ok? || r == Forbidden
  {
    match caller.role
    case Landlord | PropertyManager => Ok(Filter(db.properties, (pr: Property) => Oversees(pr, caller)))
    case Admin => Ok(db.properties)
    case TenantRole | OtherRole(_) => Forbidden
  }

  /** A landlord lists exactly the properties whose `landlord` it is, a property manager
      exactly those whose `manager` it is. */
  lemma OverseerSeesProperties(db: Db, caller: Caller, pr: Property)
    requires caller.role == Landlord || caller.role == PropertyManager
    ensures ListProperties(db, caller).Ok?
    ensures caller.role == Landlord ==>
              (pr in ListProperties(db, caller).value <==> pr in db.properties && pr.landlord == caller.id)
    ensures caller.role == PropertyManager ==>
              (pr in ListProperties(db, caller).value <==> pr in db.properties && pr.manager == Some(caller.id))
  {
    var r := ListProperties(db, caller).value;
    if pr in r {
      var i :| 0 <= i < |r| && r[i] == pr;
    }
    if pr in db.properties && Oversees(pr, caller) {
      var i :| 0 <= i < |db.properties| && db.properties[i] == pr;
    }
  }

  // ---------------------------------------------------------------------------------------
  // GET /:id

  /** `GET /:id`, with the ownership checks comparing ids as intended (see
      `GetPropertyAsWritten` for the handler as written). A path that is not an ObjectId is 500 (the cast error is caught there); a
      property manager reading a property without a manager is 500 too (`toString` of an
      undefined field). Tenants and roles the handler does not name are not checked. */
  function GetProperty(db: Db, caller: Caller, id: Option<Id>): (r: Outcome<Property>)
    ensures id.None? ==> r == ServerError
    ensures id.Some? && (forall i :: 0 <= i < |db.properties| ==> db.properties[i].id != id.value) ==> r == NotFound
    ensures r.Ok? ==> r.value in db.properties && id == Some(r.value.id)
    ensures r.Ok? || r == Forbidden || r == NotFound || r == ServerError
    ensures r == Forbidden ==> caller.role in {Landlord, PropertyManager}
    ensures caller.role == Landlord && r.Ok? ==> r.value.landlord == caller.id
    ensures caller.role == PropertyManager && r.Ok? ==> r.value.manager == Some(caller.id)
  {
    match id
    case None => ServerError
    case Some(k) =>
      match PropertyById(db.properties, k)
      case None => NotFound
      case Some(pr) =>
        if caller.role == Landlord && pr.landlord != caller.id then Forbidden
        else if caller.role == PropertyManager && pr.manager.None? then ServerError
        else if caller.role == PropertyManager && pr.manager.value != caller.id then Forbidden
        else Ok(pr)
  }

  /** `GET /:id` as written: `landlord` and `manager` are populated before the checks, and
      `toString` of a populated user document is the printed document, never the bare id the
      caller's `_id.toString()` yields. So every landlord is refused, and so is every manager
      of a property with a manager; a property without one is 500 for a manager, as above.
      The user records the populate finds are assumed to exist. */
  function GetPropertyAsWritten(db: Db, caller: Caller, id: Option<Id>): (r: Outcome<Property>)
    ensures caller.role !in {Landlord, PropertyManager} ==> r == GetProperty(db, caller, id)
    ensures caller.role in {Landlord, PropertyManager} ==> !r.Ok?
  {
    match id
    case None => ServerError
    case Some(k) =>
      match PropertyById(db.properties, k)
      case None => NotFound
      case Some(pr) =>
        if caller.role == Landlord then Forbidden
        else if caller.role == PropertyManager && pr.manager.None? then ServerError
        else if caller.role == PropertyManager then Forbidden
        else Ok(pr)
  }

  /** The discrepancy: the landlord of a property, who lists it, is refused reading it by id
      as written, while the intended check lets it through. */
  lemma GetPropertyAsWrittenRefusesOwner(db: Db, caller: Caller, j: nat)
    requires UniqueIds(db) && j < |db.properties|
    requires caller.role == Landlord && db.properties[j].landlord == caller.id
    ensures db.properties[j] in ListProperties(db, caller).value
    ensures GetPropertyAsWritten(db, caller, Some(db.properties[j].id)) == Forbidden
    ensures GetProperty(db, caller, Some(db.properties[j].id)) == Ok(db.properties[j])
  {
    PropertyByIdUnique(db, j);
    OverseerSeesProperties(db, caller, db.properties[j]);
  }

  /** A tenant, an admin or an unnamed role reads any existing property. */
  lemma GetPropertyUnchecked(db: Db, caller: Caller, j: nat)
    requires UniqueIds(db) && j < |db.properties|
    requires caller.role !in {Landlord, PropertyManager}
    ensures GetProperty(db, caller, Some(db.properties[j].id)) == Ok(db.properties[j])
  {
    PropertyByIdUnique(db, j);
  }

  /** A landlord or manager reads a property by id exactly when its listing shows it. */
  lemma GetPropertyAgreesWithList(db: Db, caller: Caller, j: nat)
    requires UniqueIds(db) && j < |db.properties|
    requires caller.role == Landlord || caller.role == PropertyManager
    ensures GetProperty(db, caller, Some(db.properties[j].id)) == Ok(db.properties[j]) <==>
            db.properties[j] in ListProperties(db, caller).value
  {
    PropertyByIdUnique(db, j);
    OverseerSeesProperties(db, caller, db.properties[j]);
  }

  // ---------------------------------------------------------------------------------------
  // POST /

  /** The express-validator checks of `POST /`. */
  predicate ValidPropertyRequest(req: PropertyRequest) {
    |req.name| > 0 && |req.address| > 0 && req.rentAmount.Some? && req.landlord.Some?
  }

  /** `POST /` for an admin or property manager: save the property under `newId` with an
      empty roster. */
  function CreateProperty(db: Db, newId: Id, req: PropertyRequest): (r: Step<Property>)
    ensures r.db.payments == db.payments && r.db.tenants == db.tenants
    ensures !ValidPropertyRequest(req) || req.manager.Malformed? || req.description.Malformed? ==>
              r == Step(db, BadRequest)
    ensures ValidPropertyRequest(req) && !req.manager.Malformed? && !req.description.Malformed? ==>
              && r.out.Created?
              && r.db.properties == db.properties + [r.out.value]
              && r.out.value.id == newId && r.out.value.name == req.name
              && r.out.value.address == req.address && r.out.value.landlord == req.landlord.value
              && r.out.value.rentAmount == req.rentAmount.value
              && (r.out.value.manager.Some? <==> req.manager.Given?)
              && (req.manager.Given? ==> r.out.value.manager == Some(req.manager.value))
              && r.out.value.description == FieldOption(req.description)
              && r.out.value.tenants == []
  {
    if !ValidPropertyRequest(req) || req.manager.Malformed? || req.description.Malformed? then
      Step(db, BadRequest)
    else
      var pr := Property(newId, req.name, req.address, req.landlord.value, FieldOption(req.manager),
                         req.rentAmount.value, FieldOption(req.description), []);
      Step(db.(properties := db.properties + [pr]), Created(pr))
  }

  /** Creation keeps ids unique and generates only the fresh id it is given. */
  lemma CreatePropertyKeepsIdsFresh(db: Db, newId: Id, req: PropertyRequest)
    requires UniqueIds(db) && IdsBelow(db, newId)
    ensures UniqueIds(CreateProperty(db, newId, req).db)
    ensures IdsBelow(CreateProperty(db, newId, req).db, newId + 1)
  {
  }

  // ---------------------------------------------------------------------------------------
  // PUT /:id

  /** A patch the schema accepts: nothing the cast rejects, and no required string set empty. */
  predicate ValidPropertyPatch(patch: PropertyPatch) {
    && !patch.name.Malformed? && !patch.address.Malformed? && !patch.landlord.Malformed?
    && !patch.manager.Malformed? && !patch.rentAmount.Malformed? && !patch.description.Malformed?
    && (patch.name.Given? ==> |patch.name.value| > 0)
    && (patch.address.Given? ==> |patch.address.value| > 0)
  }

  /** The property as `{ new: true }` returns it after the update; id and roster stay. */
  function PatchProperty(pr: Property, patch: PropertyPatch): Property {
    Property(pr.id, Patched(pr.name, patch.name), Patched(pr.address, patch.address),
             Patched(pr.landlord, patch.landlord), Patched(pr.manager, patch.manager),
             Patched(pr.rentAmount, patch.rentAmount),
             Patched(pr.description, patch.description), pr.tenants)
  }

  /** `PUT /:id` for an admin or property manager. An id that is not an ObjectId or a body
      the schema rejects is 400, a missing property 404 with nothing changed; otherwise only
      that property changes. */
  function UpdateProperty(db: Db, id: Option<Id>, patch: PropertyPatch): (r: Step<Property>)
    ensures r.db.payments == db.payments && r.db.tenants == db.tenants
    ensures id.None? || !ValidPropertyPatch(patch) ==> r == Step(db, BadRequest)
    ensures id.Some? && ValidPropertyPatch(patch) &&
              (forall i :: 0 <= i < |db.properties| ==> db.properties[i].id != id.value) ==>
              r == Step(db, NotFound)
    ensures id.Some? && ValidPropertyPatch(patch) &&
              (exists i :: 0 <= i < |db.properties| && db.properties[i].id == id.value) ==>
              r.out.Ok?
    ensures r.out.Ok? ==>
              exists i :: 0 <= i < |db.properties| && db.properties[i].id == id.value &&
                          r.out.value == PatchProperty(db.properties[i], patch) &&
                          r.db.properties == db.properties[i := r.out.value]
  {
    if id.None? || !ValidPropertyPatch(patch) then Step(db, BadRequest)
    else match PropertyIndex(db.properties, id.value)
      case None => Step(db, NotFound)
      case Some(i) =>
        var pr := PatchProperty(db.properties[i], patch);
        Step(db.(properties := db.properties[i := pr]), Ok(pr))
  }

  /** An update keeps ids unique and generates none; the roster is not part of the patch. */
  lemma UpdatePropertyKeepsIdsFresh(db: Db, id: Option<Id>, patch: PropertyPatch, n: nat)
    requires UniqueIds(db) && IdsBelow(db, n)
    ensures UniqueIds(UpdateProperty(db, id, patch).db) && IdsBelow(UpdateProperty(db, id, patch).db, n)
  {
    var after := UpdateProperty(db, id, patch).db.properties;
    assert |after| == |db.properties| &&
           forall k :: 0 <= k < |after| ==> after[k].id == db.properties[k].id &&
                                            after[k].tenants == db.properties[k].tenants;
  }

  /** After a successful update, an admin reading the property by id gets the updated one. */
  lemma UpdateThenGetProperty(db: Db, id: Id, patch: PropertyPatch, admin: Caller)
    requires UniqueIds(db) && admin.role == Admin
    requires UpdateProperty(db, Some(id), patch).out.Ok?
    ensures UniqueIds(UpdateProperty(db, Some(id), patch).db)
    ensures GetProperty(UpdateProperty(db, Some(id), patch).db, admin, Some(id)) == UpdateProperty(db, Some(id), patch).out
  {
    var r := UpdateProperty(db, Some(id), patch);
    var i :| 0 <= i < |db.properties| && db.properties[i].id == id &&
             r.out.value == PatchProperty(db.properties[i], patch) &&
             r.db.properties == db.properties[i := r.out.value];
    assert forall k :: 0 <= k < |r.db.properties| ==> r.db.properties[k].id == db.properties[k].id;
    PropertyByIdUnique(r.db, i);
  }

  // ---------------------------------------------------------------------------------------
  // DELETE /:id

  /** `DELETE /:id` for an admin: remove the property and nothing else. Tenancies that name
      it keep naming it. A path that is not an ObjectId is 500, a missing property 404. */
  function DeleteProperty(db: Db, id: Option<Id>): (r: Step<Property>)
    ensures r.db.payments == db.payments && r.db.tenants == db.tenants
    ensures id.None? ==> r == Step(db, ServerError)
    ensures id.Some? && (forall i :: 0 <= i < |db.properties| ==> db.properties[i].id != id.value) ==>
              r == Step(db, NotFound)
    ensures id.Some? && (exists i :: 0 <= i < |db.properties| && db.properties[i].id == id.value) ==> r.out.Ok?
    ensures r.out.Ok? ==>
              exists i :: 0 <= i < |db.properties| && db.properties[i] == r.out.value &&
                          r.out.value.id == id.value && r.db.properties == RemoveAt(db.properties, i)
  {
    match id
    case None => Step(db, ServerError)
    case Some(k) =>
      match PropertyIndex(db.properties, k)
      case None => Step(db, NotFound)
      case Some(i) => Step(db.(properties := RemoveAt(db.properties, i)), Ok(db.properties[i]))
  }

  /** A deletion keeps ids unique and generates none. */
  lemma DeletePropertyKeepsIdsFresh(db: Db, id: Option<Id>, n: nat)
    requires UniqueIds(db) && IdsBelow(db, n)
    ensures UniqueIds(DeleteProperty(db, id).db) && IdsBelow(DeleteProperty(db, id).db, n)
  {
  }

  /** Deleting a property right after creating it puts the store back as it was. */
  lemma {:induction false} CreateThenDeleteProperty(db: Db, newId: Id, req: PropertyRequest)
    requires IdsBelow(db, newId)
    requires ValidPropertyRequest(req) && !req.manager.Malformed? && !req.description.Malformed?
    ensures var created := CreateProperty(db, newId, req);
            DeleteProperty(created.db, Some(newId)) == Step(db, Ok(created.out.value))
  {
    var created := CreateProperty(db, newId, req);
    FirstIndexAppend(db.properties, created.out.value, (pr: Property) => pr.id == newId);
    assert PropertyIndex(created.db.properties, newId) == Some(|db.properties|);
    assert RemoveAt(created.db.properties, |db.properties|) == db.properties;
  }

  /** No cascade: after the deletion every tenancy still names the property, and a landlord
      who reads such a tenancy by id gets 500, since its property is gone. */
  lemma DeletePropertyStrandsTenancies(db: Db, id: Id, landlord: Caller, j: nat)
    requires UniqueIds(db) && DeleteProperty(db, Some(id)).out.Ok?
    requires j < |db.tenants| && db.tenants[j].property == id && landlord.role == Landlord
    ensures var after := DeleteProperty(db, Some(id)).db;
            after.tenants[j] == db.tenants[j] &&
            Tenants.GetTenant(after, landlord, Some(db.tenants[j].id)) == ServerError
  {
    var after := DeleteProperty(db, Some(id)).db;
    var i := PropertyIndex(db.properties, id).value;
    assert forall k :: 0 <= k < |after.properties| ==> after.properties[k].id != id by {
      forall k | 0 <= k < |after.properties|
        ensures after.properties[k].id != id
      {
        if k < i {
          assert after.properties[k] == db.properties[k];
        } else {
          assert after.properties[k] == db.properties[k + 1];
        }
      }
    }
    TenantIndexUnique(after, j);
  }
}
