/** The in-memory stand-in for the three MongoDB collections, with one method per route
    handler. Each method does in place what its handler does to the collections and ends
    in the state, and with the answer, of its step function in Payments, Tenants or
    Properties. The role gates of the `roleCheck` middleware become preconditions. */
module Store {
  import opened Common
  import opened Seqs
  import opened Records
  import opened Gateway
  import Payments
  import Tenants
  import Properties

  class Store {
    var payments: seq<Payment>
    var tenants: seq<Tenant>
    var properties: seq<Property>
    /** The next ObjectId the store hands out. */
    var nextId: nat
    /** The schema default of `status`, which a new `mpesa` record takes. */
    const mpesaInitialStatus: PaymentStatus

    function State(): Db
      reads this
    {
      Db(payments, tenants, properties)
    }

    ghost predicate Valid()
      reads this
    {
      UniqueIds(State()) && IdsBelow(State(), nextId)
    }

    constructor (initialStatus: PaymentStatus)
      ensures Valid() && State() == Db([], [], []) && mpesaInitialStatus == initialStatus
    {
      payments, tenants, properties := [], [], [];
      nextId := 0;
      mpesaInitialStatus := initialStatus;
    }

    // -------------------------------------------------------------------------------------
    // backend/routes/payments.js

    /** `GET /payments` */
    method ListPayments(caller: Caller) returns (o: Outcome<seq<Payment>>)
      ensures o == Payments.ListPayments(State(), caller)
    {
      o := Payments.ListPayments(State(), caller);
    }

    /** `POST /payments/mpesa` (tenants only). `sent` is the gateway's reply, `None` when the
        handler stopped before calling it. */
    method InitiateMpesa(caller: Caller, req: Payments.MpesaRequest)
      returns (o: Outcome<Payments.Initiated>, sent: Option<GatewayReply>)
      requires Valid() && caller.role == TenantRole
      modifies this
      ensures Valid()
      ensures sent.Some? <==> Payments.ValidMpesaRequest(req) && TenantOfUser(old(tenants), caller.id).Some?
      ensures nextId == old(nextId) + (if sent.Some? then 1 else 0)
      ensures Step(State(), o) == Payments.Initiate(old(State()), old(nextId), mpesaInitialStatus, caller, req,
                                                    if sent.Some? then sent.value else Failure)
    {
      sent := None;
      if !Payments.ValidMpesaRequest(req) {
        o := BadRequest;
        return;
      }
      var tenant := TenantOfUser(tenants, caller.id);
      if tenant.None? {
        o := BadRequest;
        return;
      }
      Payments.InitiateKeepsIdsFresh(State(), nextId, mpesaInitialStatus, caller, req, Failure);
      var payment := Payment(nextId, tenant.value.id, req.amount.value, Mpesa, mpesaInitialStatus, None);
      nextId := nextId + 1;
      payments := payments + [payment];
      var reply := StkPush(req.amount.value, req.phone, tenant.value.id);
      sent := Some(reply);
      match reply
      case Failure =>
        o := BadRequest;
      case Token(cid) =>
        payment := payment.(transactionId := Some(cid));
        payments := payments[|payments| - 1 := payment];
        o := Ok(Payments.Initiated(payment, cid));
    }

    /** `POST /payments/mpesa/callback` (no authentication). */
    method MpesaCallback(payload: Payments.CallbackPayload) returns (o: Outcome<Payments.Ack>)
      requires Valid()
      modifies this
      ensures Valid() && nextId == old(nextId)
      ensures Step(State(), o) == Payments.Reconcile(old(State()), payload)
    {
      if payload.stkCallback.None? {
        o := ServerError;
        return;
      }
      var cb := payload.stkCallback.value;
      Payments.ReconcileKeepsIdsFresh(State(), payload, nextId);
      var found := PaymentByTransaction(payments, cb.checkoutRequestId);
      if found.Some? {
        var i := found.value;
        payments := payments[i := payments[i].(status := Payments.StatusFromResultCode(cb.resultCode))];
      }
      o := Ok(Payments.CallbackReceived);
    }

    /** `POST /payments` (admins and property managers). */
    method RecordManualPayment(caller: Caller, req: Payments.ManualRequest) returns (o: Outcome<Payment>)
      requires Valid() && caller.role in {Admin, PropertyManager}
      modifies this
      ensures Valid()
      ensures nextId == old(nextId) + (if o.Created? then 1 else 0)
      ensures Step(State(), o) == Payments.ManualEntry(old(State()), old(nextId), req)
    {
      if !Payments.ValidManualRequest(req) {
        o := BadRequest;
        return;
      }
      Payments.ManualEntryKeepsIdsFresh(State(), nextId, req);
      var payment := Payment(nextId, req.tenant.value, req.amount.value,
                             Payments.ManualMethod(req.payMethod).value, Pending, req.transactionId);
      payment := payment.(status := Completed);
      nextId := nextId + 1;
      payments := payments + [payment];
      o := Created(payment);
    }

    // -------------------------------------------------------------------------------------
    // backend/routes/tenants.js

    /** `GET /tenants` */
    method ListTenants(caller: Caller) returns (o: Outcome<seq<Tenant>>)
      ensures o == Tenants.ListTenants(State(), caller)
    {
      o := Tenants.ListTenants(State(), caller);
    }

    /** `GET /tenants/:id` */
    method GetTenant(caller: Caller, id: Option<Id>) returns (o: Outcome<Tenant>)
      ensures o == Tenants.GetTenant(State(), caller, id)
    {
      o := Tenants.GetTenant(State(), caller, id);
    }

    /** `POST /tenants` (admins and property managers). */
    method CreateTenant(caller: Caller, req: Tenants.TenantRequest) returns (o: Outcome<Tenant>)
      requires Valid() && caller.role in {Admin, PropertyManager}
      modifies this
      ensures Valid()
      ensures nextId == old(nextId) + (if o.Created? then 1 else 0)
      ensures Step(State(), o) == Tenants.CreateTenant(old(State()), old(nextId), req)
    {
      if !Tenants.ValidTenantRequest(req) || req.status.Malformed? {
        o := BadRequest;
        return;
      }
      Tenants.CreateTenantKeepsIdsFresh(State(), nextId, req);
      var tenant := Tenant(nextId, req.user.value, req.property.value, req.leaseStart.value,
                           req.leaseEnd.value, req.rentAmount.value, req.deposit.value,
                           if req.status.Given? then req.status.value else Active);
      nextId := nextId + 1;
      tenants := tenants + [tenant];
      properties := Tenants.PushTenant(properties, tenant.property, tenant.id);
      o := Created(tenant);
    }

    /** `PUT /tenants/:id` (admins and property managers). */
    method UpdateTenant(caller: Caller, id: Option<Id>, patch: Tenants.TenantPatch) returns (o: Outcome<Tenant>)
      requires Valid() && caller.role in {Admin, PropertyManager}
      modifies this
      ensures Valid() && nextId == old(nextId)
      ensures Step(State(), o) == Tenants.UpdateTenant(old(State()), id, patch)
    {
      if id.None? || !Tenants.ValidTenantPatch(patch) {
        o := BadRequest;
        return;
      }
      var found := TenantIndex(tenants, id.value);
      if found.None? {
        o := NotFound;
        return;
      }
      var i := found.value;
      var tenant := Tenants.PatchTenant(tenants[i], patch);
      Tenants.UpdateTenantKeepsIdsFresh(State(), id, patch, nextId);
      tenants := tenants[i := tenant];
      o := Ok(tenant);
    }

    /** `DELETE /tenants/:id` (admins only). */
    method DeleteTenant(caller: Caller, id: Option<Id>) returns (o: Outcome<Tenant>)
      requires Valid() && caller.role == Admin
      modifies this
      ensures Valid() && nextId == old(nextId)
      ensures Step(State(), o) == Tenants.DeleteTenant(old(State()), id)
    {
      if id.None? {
        o := ServerError;
        return;
      }
      var found := TenantIndex(tenants, id.value);
      if found.None? {
        o := NotFound;
        return;
      }
      Tenants.DeleteTenantKeepsIdsFresh(State(), id, nextId);
      var tenant := tenants[found.value];
      tenants := RemoveAt(tenants, found.value);
      properties := Tenants.PullTenant(properties, tenant.property, tenant.id);
      o := Ok(tenant);
    }

    // -------------------------------------------------------------------------------------
    // backend/routes/properties.js

    /** `GET /properties` */
    method ListProperties(caller: Caller) returns (o: Outcome<seq<Property>>)
      ensures o == Properties.ListProperties(State(), caller)
    {
      o := Properties.ListProperties(State(), caller);
    }

    /** `GET /properties/:id` */
    method GetProperty(caller: Caller, id: Option<Id>) returns (o: Outcome<Property>)
      ensures o == Properties.GetProperty(State(), caller, id)
    {
      o := Properties.GetProperty(State(), caller, id);
    }

    /** `POST /properties` (admins and property managers). */
    method CreateProperty(caller: Caller, req: Properties.PropertyRequest) returns (o: Outcome<Property>)
      requires Valid() && caller.role in {Admin, PropertyManager}
      modifies this
      ensures Valid()
      ensures nextId == old(nextId) + (if o.Created? then 1 else 0)
      ensures Step(State(), o) == Properties.CreateProperty(old(State()), old(nextId), req)
    {
      if !Properties.ValidPropertyRequest(req) || req.manager.Malformed? || req.description.Malformed? {
        o := BadRequest;
        return;
      }
      Properties.CreatePropertyKeepsIdsFresh(State(), nextId, req);
      var property := Property(nextId, req.name, req.address, req.landlord.value, FieldOption(req.manager),
                               req.rentAmount.value, FieldOption(req.description), []);
      nextId := nextId + 1;
      properties := properties + [property];
      o := Created(property);
    }

    /** `PUT /properties/:id` (admins and property managers). */
    method UpdateProperty(caller: Caller, id: Option<Id>, patch: Properties.PropertyPatch)
      returns (o: Outcome<Property>)
      requires Valid() && caller.role in {Admin, PropertyManager}
      modifies this
      ensures Valid() && nextId == old(nextId)
      ensures Step(State(), o) == Properties.UpdateProperty(old(State()), id, patch)
    {
      if id.None? || !Properties.ValidPropertyPatch(patch) {
        o := BadRequest;
        return;
      }
      var found := PropertyIndex(properties, id.value);
      if found.None? {
        o := NotFound;
        return;
      }
      var i := found.value;
      var property := Properties.PatchProperty(properties[i], patch);
      Properties.UpdatePropertyKeepsIdsFresh(State(), id, patch, nextId);
      properties := properties[i := property];
      o := Ok(property);
    }

    /** `DELETE /properties/:id` (admins only). */
    method DeleteProperty(caller: Caller, id: Option<Id>) returns (o: Outcome<Property>)
      requires Valid() && caller.role == Admin
      modifies this
      ensures Valid() && nextId == old(nextId)
      ensures Step(State(), o) == Properties.DeleteProperty(old(State()), id)
    {
      if id.None? {
        o := ServerError;
        return;
      }
      var found := PropertyIndex(properties, id.value);
      if found.None? {
        o := NotFound;
        return;
      }
      Properties.DeletePropertyKeepsIdsFresh(State(), id, nextId);
      var property := properties[found.value];
      properties := RemoveAt(properties, found.value);
      o := Ok(property);
    }
  }
}
