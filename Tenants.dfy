/** backend/routes/tenants.js: role-scoped listing, creation with the `$push` onto the
    property's roster, the access checks of a read by id, update, and deletion with the
    `$pull` off the roster. */
module Tenants {
  import opened Common
  import opened Seqs
  import opened Records

  /** The body of `POST /`: a required field is `None` when its validator rejects it
      (`isMongoId`, `isISO8601`, `isNumeric`); `status` is cast by the schema on save. */
  datatype TenantRequest = TenantRequest(user: Option<Id>, property: Option<Id>,
                                         leaseStart: Option<int>, leaseEnd: Option<int>,
                                         rentAmount: Option<int>, deposit: Option<int>,
                                         status: Field<TenantStatus>)

  /** The body of `PUT /:id`, as `findByIdAndUpdate` with `runValidators` sees it. */
  datatype TenantPatch = TenantPatch(user: Field<Id>, property: Field<Id>,
                                     leaseStart: Field<int>, leaseEnd: Field<int>,
                                     rentAmount: Field<int>, deposit: Field<int>,
                                     status: Field<TenantStatus>)

  // ---------------------------------------------------------------------------------------
  // GET /

  /** `properties.map(p => p._id)` */
  function PropertyIds(ps: seq<Property>): seq<Id> {
    Map(ps, (pr: Property) => pr.id)
  }

  /** The properties the caller owns (landlord) or manages (property manager). */
  function OverseenProperties(db: Db, caller: Caller): seq<Property> {
    Filter(db.properties, (pr: Property) => Oversees(pr, caller))
  }

  /** `GET /`: the tenancies the caller may see. An admin sees them all and a role the
      handler does not name gets 403. */
  function ListTenants(db: Db, caller: Caller): (r: Outcome<seq<Tenant>>)
    ensures caller.role == Admin ==> r == Ok(db.tenants)
    ensures caller.role.OtherRole? ==> r == Forbidden
    ensures r.Ok? || r == Forbidden
  {
    match caller.role
    case Landlord | PropertyManager =>
      var ids := PropertyIds(OverseenProperties(db, caller));
      Ok(Filter(db.tenants, (t: Tenant) => t.property in ids))
    case TenantRole => Ok(Filter(db.tenants, (t: Tenant) => t.user == caller.id))
    case Admin => Ok(db.tenants)
    case OtherRole(_) => Forbidden
  }

  /** A tenant sees exactly the tenancy records of its own user. */
  lemma TenantSeesOwnTenancies(db: Db, caller: Caller, t: Tenant)
    requires caller.role == TenantRole
    ensures ListTenants(db, caller).Ok?
    ensures t in ListTenants(db, caller).value <==> t in db.tenants && t.user == caller.id
  {
    var r := ListTenants(db, caller).value;
    if t in r {
      var i :| 0 <= i < |r| && r[i] == t;
    }
    if t in db.tenants && t.user == caller.id {
      var i :| 0 <= i < |db.tenants| && db.tenants[i] == t;
    }
  }

  /** A landlord or property manager sees exactly the tenancies on properties it owns or
      manages. */
  lemma OverseerSeesTenancies(db: Db, caller: Caller, t: Tenant)
    requires caller.role == Landlord || caller.role == PropertyManager
    ensures ListTenants(db, caller).Ok?
    ensures t in ListTenants(db, caller).value <==>
              t in db.tenants &&
              exists pr :: pr in db.properties && pr.id == t.property && Oversees(pr, caller)
  {
    var overseen := OverseenProperties(db, caller);
    var ids := PropertyIds(overseen);
    var r := ListTenants(db, caller).value;
    if t in r {
      var i :| 0 <= i < |r| && r[i] == t;
      var j :| 0 <= j < |ids| && ids[j] == t.property;
      assert overseen[j] in db.properties;
    }
    if t in db.tenants && exists pr :: pr in db.properties && pr.id == t.property && Oversees(pr, caller) {
      var pr :| pr in db.properties && pr.id == t.property && Oversees(pr, caller);
      var k :| 0 <= k < |db.properties| && db.properties[k] == pr;
      var j :| 0 <= j < |overseen| && overseen[j] == pr;
      assert ids[j] == t.property;
      var i :| 0 <= i < |db.tenants| && db.tenants[i] == t;
    }
  }

  // ---------------------------------------------------------------------------------------
  // GET /:id

  /** `GET /:id`. `id` is `None` when the path segment is not an ObjectId (the cast error
      lands in the 500 handler). A landlord or manager reading a tenancy whose property is
      gone, or a manager reading one whose property has no manager, also gets 500: the
      handler dereferences the missing document or field. */
  function GetTenant(db: Db, caller: Caller, id: Option<Id>): (r: Outcome<Tenant>)
    ensures id.None? ==> r == ServerError
    ensures id.Some? && (forall i :: 0 <= i < |db.tenants| ==> db.tenants[i].id != id.value) ==> r == NotFound
    ensures r.Ok? ==> r.value in db.tenants && id == Some(r.value.id)
    ensures r.Ok? || r == Forbidden || r == NotFound || r == ServerError
    ensures r == Forbidden ==> caller.role in {TenantRole, Landlord, PropertyManager}
    ensures caller.role == TenantRole && r.Ok? ==> r.value.user == caller.id
    ensures caller.role in {Landlord, PropertyManager} && r.Ok? ==>
              exists pr :: pr in db.properties && pr.id == r.value.property && Oversees(pr, caller)
  {
    match id
    case None => ServerError
    case Some(k) =>
      match TenantIndex(db.tenants, k)
      case None => NotFound
      case Some(i) =>
        var t := db.tenants[i];
        match caller.role
        case TenantRole => if t.user != caller.id then Forbidden else Ok(t)
        case Landlord =>
          (match PropertyById(db.properties, t.property)
           case None => ServerError
           case Some(pr) => if pr.landlord != caller.id then Forbidden else Ok(t))
        case PropertyManager =>
          (match PropertyById(db.properties, t.property)
           case None => ServerError
           case Some(pr) =>
             match pr.manager
             case None => ServerError
             case Some(m) => if m != caller.id then Forbidden else Ok(t))
        case Admin => Ok(t)
        case OtherRole(_) => Ok(t)
  }

  /** For the four registered roles, reading a tenancy by id succeeds exactly when the
      listing shows it. */
  lemma {:induction false} GetTenantAgreesWithList(db: Db, caller: Caller, j: nat)
    requires UniqueIds(db) && j < |db.tenants|
    requires caller.role in {Admin, PropertyManager, Landlord, TenantRole}
    ensures GetTenant(db, caller, Some(db.tenants[j].id)) == Ok(db.tenants[j]) <==>
            db.tenants[j] in ListTenants(db, caller).value
  {
    var t := db.tenants[j];
    TenantIndexUnique(db, j);
    if caller.role == TenantRole {
      TenantSeesOwnTenancies(db, caller, t);
    } else if caller.role in {Landlord, PropertyManager} {
      OverseerSeesTenancies(db, caller, t);
      match PropertyById(db.properties, t.property)
      case None =>
      case Some(pr) =>
        if exists q :: q in db.properties && q.id == t.property && Oversees(q, caller) {
          var q :| q in db.properties && q.id == t.property && Oversees(q, caller);
          var k :| 0 <= k < |db.properties| && db.properties[k] == q;
          PropertyByIdUnique(db, k);
        }
    }
  }

  // ---------------------------------------------------------------------------------------
  // POST /

  /** The express-validator checks of `POST /`. */
  predicate ValidTenantRequest(req: TenantRequest) {
    && req.user.Some? && req.property.Some? && req.leaseStart.Some? && req.leaseEnd.Some?
    && req.rentAmount.Some? && req.deposit.Some?
  }

  /** `$push: { tenants: tid }` on the property found by id, if any. */
  function PushTenant(ps: seq<Property>, pid: Id, tid: Id): seq<Property> {
    match PropertyIndex(ps, pid)
    case None => ps
    case Some(j) => ps[j := ps[j].(tenants := ps[j].tenants + [tid])]
  }

  /** `$pull: { tenants: tid }` on the property found by id, if any: every occurrence goes. */
  function PullTenant(ps: seq<Property>, pid: Id, tid: Id): seq<Property> {
    match PropertyIndex(ps, pid)
    case None => ps
    case Some(j) => ps[j := ps[j].(tenants := Filter(ps[j].tenants, (x: Id) => x != tid))]
  }

  /** `POST /` for an admin or property manager: save the tenancy under `newId` (status
      `active` unless the body names one), then push its id onto the roster of the property
      it names. A property that does not exist is no obstacle: the tenancy is still saved. */
  function CreateTenant(db: Db, newId: Id, req: TenantRequest): (r: Step<Tenant>)
    ensures r.db.payments == db.payments
    ensures !ValidTenantRequest(req) || req.status.Malformed? ==> r == Step(db, BadRequest)
    ensures ValidTenantRequest(req) && !req.status.Malformed? ==>
              && r.out.Created?
              && r.db.tenants == db.tenants + [r.out.value]
              && r.out.value == Tenant(newId, req.user.value, req.property.value,
                                       req.leaseStart.value, req.leaseEnd.value,
                                       req.rentAmount.value, req.deposit.value,
                                       if req.status.Given? then req.status.value else Active)
  {
    if !ValidTenantRequest(req) || req.status.Malformed? then Step(db, BadRequest)
    else
      var t := Tenant(newId, req.user.value, req.property.value, req.leaseStart.value,
                      req.leaseEnd.value, req.rentAmount.value, req.deposit.value,
                      if req.status.Given? then req.status.value else Active);
      Step(Db(db.payments, db.tenants + [t], PushTenant(db.properties, t.property, t.id)), Created(t))
  }

  /** A successful creation appends the new id to the roster of the named property, leaves
      every other property as it was, and leaves all of them as they were when no property
      has that id. */
  lemma CreateTenantLinksProperty(db: Db, newId: Id, req: TenantRequest, k: nat)
    requires UniqueIds(db) && ValidTenantRequest(req) && !req.status.Malformed?
    requires k < |db.properties|
    ensures var ps := CreateTenant(db, newId, req).db.properties;
            && |ps| == |db.properties|
            && ps[k] == if db.properties[k].id == req.property.value
                        then db.properties[k].(tenants := db.properties[k].tenants + [newId])
                        else db.properties[k]
  {
    var j := PropertyIndex(db.properties, req.property.value);
    if db.properties[k].id == req.property.value {
      assert j.Some? && j.value <= k;
    }
  }

  /** Creation keeps ids unique and generates only the fresh id it is given. */
  lemma CreateTenantKeepsIdsFresh(db: Db, newId: Id, req: TenantRequest)
    requires UniqueIds(db) && IdsBelow(db, newId)
    ensures UniqueIds(CreateTenant(db, newId, req).db)
    ensures IdsBelow(CreateTenant(db, newId, req).db, newId + 1)
  {
    var r := CreateTenant(db, newId, req).db;
    assert forall i :: 0 <= i < |r.properties| ==> r.properties[i].id == db.properties[i].id;
    if ValidTenantRequest(req) && !req.status.Malformed? {
      var j := PropertyIndex(db.properties, req.property.value);
      if j.Some? {
        var ps := db.properties;
        assert forall k :: 0 <= k < |ps[j.value].tenants| + 1 ==>
          (ps[j.value].tenants + [newId])[k] < newId + 1;
      }
    }
  }

  // ---------------------------------------------------------------------------------------
  // PUT /:id

  /** A patch the schema accepts: no field that the cast or the validators reject. */
  predicate ValidTenantPatch(patch: TenantPatch) {
    && !patch.user.Malformed? && !patch.property.Malformed? && !patch.leaseStart.Malformed?
    && !patch.leaseEnd.Malformed? && !patch.rentAmount.Malformed? && !patch.deposit.Malformed?
    && !patch.status.Malformed?
  }

  /** The tenancy as `{ new: true }` returns it after the update. */
  function PatchTenant(t: Tenant, patch: TenantPatch): Tenant {
    Tenant(t.id, Patched(t.user, patch.user), Patched(t.property, patch.property),
           Patched(t.leaseStart, patch.leaseStart), Patched(t.leaseEnd, patch.leaseEnd),
           Patched(t.rentAmount, patch.rentAmount), Patched(t.deposit, patch.deposit),
           Patched(t.status, patch.status))
  }

  /** `PUT /:id` for an admin or property manager. An id that is not an ObjectId or a body
      the schema rejects is 400 (both throw before the lookup), a missing tenancy 404.
      No roster is touched, even when the tenancy moves to another property. */
  function UpdateTenant(db: Db, id: Option<Id>, patch: TenantPatch): (r: Step<Tenant>)
    ensures r.db.payments == db.payments && r.db.properties == db.properties
    ensures id.None? || !ValidTenantPatch(patch) ==> r == Step(db, BadRequest)
    ensures id.Some? && ValidTenantPatch(patch) &&
              (forall i :: 0 <= i < |db.tenants| ==> db.tenants[i].id != id.value) ==>
              r == Step(db, NotFound)
    ensures id.Some? && ValidTenantPatch(patch) &&
              (exists i :: 0 <= i < |db.tenants| && db.tenants[i].id == id.value) ==>
              r.out.Ok?
    ensures r.out.Ok? ==>
              exists i :: 0 <= i < |db.tenants| && db.tenants[i].id == id.value &&
                          r.out.value == PatchTenant(db.tenants[i], patch) &&
                          r.db.tenants == db.tenants[i := r.out.value]
  {
    if id.None? || !ValidTenantPatch(patch) then Step(db, BadRequest)
    else match TenantIndex(db.tenants, id.value)
      case None => Step(db, NotFound)
      case Some(i) =>
        var t := PatchTenant(db.tenants[i], patch);
        Step(db.(tenants := db.tenants[i := t]), Ok(t))
  }

  /** An update keeps ids unique and generates none. */
  lemma UpdateTenantKeepsIdsFresh(db: Db, id: Option<Id>, patch: TenantPatch, n: nat)
    requires UniqueIds(db) && IdsBelow(db, n)
    ensures UniqueIds(UpdateTenant(db, id, patch).db) && IdsBelow(UpdateTenant(db, id, patch).db, n)
  {
    var after := UpdateTenant(db, id, patch).db.tenants;
    assert |after| == |db.tenants| && forall k :: 0 <= k < |after| ==> after[k].id == db.tenants[k].id;
  }

  /** After a successful update, an admin reading the tenancy by id gets the updated one. */
  lemma UpdateThenGetTenant(db: Db, id: Id, patch: TenantPatch, admin: Caller)
    requires UniqueIds(db) && admin.role == Admin
    requires UpdateTenant(db, Some(id), patch).out.Ok?
    ensures UniqueIds(UpdateTenant(db, Some(id), patch).db)
    ensures GetTenant(UpdateTenant(db, Some(id), patch).db, admin, Some(id)) == UpdateTenant(db, Some(id), patch).out
  {
    var r := UpdateTenant(db, Some(id), patch);
    var i :| 0 <= i < |db.tenants| && db.tenants[i].id == id && r.db.tenants == db.tenants[i := r.out.value] &&
             r.out.value == PatchTenant(db.tenants[i], patch);
    assert forall k :: 0 <= k < |r.db.tenants| ==> r.db.tenants[k].id == db.tenants[k].id;
    TenantIndexUnique(r.db, i);
  }

  // ---------------------------------------------------------------------------------------
  // DELETE /:id

  /** `DELETE /:id` for an admin: remove the tenancy and pull its id off the roster of the
      property it names. An id that is not an ObjectId is 500, a missing tenancy 404. */
  function DeleteTenant(db: Db, id: Option<Id>): (r: Step<Tenant>)
    ensures r.db.payments == db.payments
    ensures id.None? ==> r == Step(db, ServerError)
    ensures id.Some? && (forall i :: 0 <= i < |db.tenants| ==> db.tenants[i].id != id.value) ==> r == Step(db, NotFound)
    ensures id.Some? && (exists i :: 0 <= i < |db.tenants| && db.tenants[i].id == id.value) ==> r.out.Ok?
    ensures r.out.Ok? ==>
              exists i :: 0 <= i < |db.tenants| && db.tenants[i] == r.out.value && r.out.value.id == id.value &&
                          r.db.tenants == RemoveAt(db.tenants, i)
  {
    match id
    case None => Step(db, ServerError)
    case Some(k) =>
      match TenantIndex(db.tenants, k)
      case None => Step(db, NotFound)
      case Some(i) =>
        var t := db.tenants[i];
        Step(Db(db.payments, RemoveAt(db.tenants, i), PullTenant(db.properties, t.property, t.id)), Ok(t))
  }

  /** A deletion keeps ids unique and generates none. */
  lemma DeleteTenantKeepsIdsFresh(db: Db, id: Option<Id>, n: nat)
    requires UniqueIds(db) && IdsBelow(db, n)
    ensures UniqueIds(DeleteTenant(db, id).db) && IdsBelow(DeleteTenant(db, id).db, n)
  {
    if id.Some? && TenantIndex(db.tenants, id.value).Some? {
      var t := db.tenants[TenantIndex(db.tenants, id.value).value];
      var ps := db.properties;
      var qs := PullTenant(ps, t.property, t.id);
      assert |qs| == |ps| && forall q :: 0 <= q < |qs| ==> qs[q].id == ps[q].id;
      forall q, k | 0 <= q < |qs| && 0 <= k < |qs[q].tenants|
        ensures qs[q].tenants[k] < n
      {
        assert qs[q].tenants[k] in ps[q].tenants;
      }
    }
  }

  /** A deletion leaves no tenancy with that id, takes every occurrence of the id off the
      roster of the tenancy's property, and leaves every other property as it was. */
  lemma DeleteTenantUnlinks(db: Db, id: Id, k: nat)
    requires UniqueIds(db) && DeleteTenant(db, Some(id)).out.Ok?
    requires k < |db.properties|
    ensures var r := DeleteTenant(db, Some(id));
            && (forall i :: 0 <= i < |r.db.tenants| ==> r.db.tenants[i].id != id)
            && |r.db.properties| == |db.properties|
            && (db.properties[k].id == r.out.value.property ==>
                  && r.db.properties[k] == db.properties[k].(tenants := r.db.properties[k].tenants)
                  && (forall x :: x in r.db.properties[k].tenants <==> x in db.properties[k].tenants && x != id))
            && (db.properties[k].id != r.out.value.property ==> r.db.properties[k] == db.properties[k])
  {
    var r := DeleteTenant(db, Some(id));
    var i := TenantIndex(db.tenants, id).value;
    var t := db.tenants[i];
    var j := PropertyIndex(db.properties, t.property);
    if db.properties[k].id == t.property {
      assert j.Some? && j.value <= k;
      var before := db.properties[k].tenants;
      var after := r.db.properties[k].tenants;
      forall x ensures x in after <==> x in before && x != id {
        if x in after {
          var a :| 0 <= a < |after| && after[a] == x;
        }
        if x in before && x != id {
          var b :| 0 <= b < |before| && before[b] == x;
        }
      }
    }
  }

  /** Pulling an id that no roster held, right after pushing it, restores the rosters. */
  lemma {:induction false} PushThenPull(ps: seq<Property>, pid: Id, tid: Id)
    requires forall q, k :: 0 <= q < |ps| && 0 <= k < |ps[q].tenants| ==> ps[q].tenants[k] != tid
    ensures PullTenant(PushTenant(ps, pid, tid), pid, tid) == ps
  {
    var mid := PushTenant(ps, pid, tid);
    assert forall q :: 0 <= q < |ps| ==> mid[q].id == ps[q].id;
    FirstIndexAgrees(mid, ps, (pr: Property) => pr.id == pid, (pr: Property) => pr.id == pid);
    match PropertyIndex(ps, pid)
    case None =>
    case Some(j) =>
      var roster := ps[j].tenants;
      var keep := (x: Id) => x != tid;
      assert mid[j].tenants == roster + [tid];
      FilterAppend(roster, tid, keep);
      assert forall k :: 0 <= k < |roster| ==> keep(roster[k]);
      FilterKeepsAll(roster, keep);
      assert Filter(mid[j].tenants, keep) == roster;
      calc {
        PullTenant(mid, pid, tid);
        mid[j := mid[j].(tenants := Filter(mid[j].tenants, keep))];
        mid[j := ps[j]];
        ps;
      }
  }

  /** Deleting a tenancy right after creating it puts the store back as it was: the push
      and the pull cancel out when the id was fresh. */
  lemma {:induction false} CreateThenDeleteTenant(db: Db, newId: Id, req: TenantRequest)
    requires UniqueIds(db) && IdsBelow(db, newId)
    requires ValidTenantRequest(req) && !req.status.Malformed?
    ensures var created := CreateTenant(db, newId, req);
            DeleteTenant(created.db, Some(newId)) == Step(db, Ok(created.out.value))
  {
    var created := CreateTenant(db, newId, req);
    var t := created.out.value;
    FirstIndexAppend(db.tenants, t, (x: Tenant) => x.id == newId);
    assert TenantIndex(created.db.tenants, newId) == Some(|db.tenants|);
    assert RemoveAt(created.db.tenants, |db.tenants|) == db.tenants;
    PushThenPull(db.properties, t.property, newId);
  }
}
