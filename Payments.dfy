/** backend/routes/payments.js: role-scoped listing, M-Pesa initiation, the M-Pesa result
    callback and manual (cash or bank) entry, each as a step on the store snapshot. */
module Payments {
  import opened Common
  import opened Seqs
  import opened Records
  import opened Gateway

  /** The body of `POST /mpesa`: `amount` is `None` when it is not numeric. */
  datatype MpesaRequest = MpesaRequest(amount: Option<int>, phone: string)

  /** The body of a successful initiation: `{ payment, stkResponse }`. */
  datatype Initiated = Initiated(payment: Payment, checkoutRequestId: string)

  /** The JSON value of `ResultCode`: a number, or anything else (a string, null, missing). */
  datatype ResultCode = JsonNumber(n: int) | NotANumber

  datatype StkCallback = StkCallback(checkoutRequestId: string, resultCode: ResultCode)

  /** The body of `POST /mpesa/callback`; `None` when `Body.stkCallback` is not there. */
  datatype CallbackPayload = CallbackPayload(stkCallback: Option<StkCallback>)

  datatype Ack = CallbackReceived

  /** The body of `POST /` (manual entry). `tenant` is `None` when it is not an ObjectId,
      `amount` when it is not numeric; `status` and `transactionId` are whatever else the
      body carries into `new Payment(req.body)`. */
  datatype ManualRequest = ManualRequest(tenant: Option<Id>, amount: Option<int>, payMethod: string,
                                         status: Option<string>, transactionId: Option<string>)

  // ---------------------------------------------------------------------------------------
  // GET /

  /** A tenancy whose populated `property` survives the `match` of the listing query: the
      property exists and the caller oversees it. */
  predicate TenantOverseen(db: Db, t: Tenant, caller: Caller) {
    match PropertyById(db.properties, t.property)
    case None => false
    case Some(pr) => Oversees(pr, caller)
  }

  /** `tenants.filter(t => t.property).map(t => t._id)` */
  function OverseenTenantIds(db: Db, caller: Caller): seq<Id> {
    Map(Filter(db.tenants, (t: Tenant) => TenantOverseen(db, t, caller)), (t: Tenant) => t.id)
  }

  /** `GET /`: the payments the caller may see. An admin sees them all, a role the handler
      does not name gets 403, and a tenant without a tenancy record gets 500. */
  function ListPayments(db: Db, caller: Caller): (r: Outcome<seq<Payment>>)
    ensures caller.role == Admin ==> r == Ok(db.payments)
    ensures caller.role.OtherRole? ==> r == Forbidden
    ensures caller.role == TenantRole && TenantOfUser(db.tenants, caller.id).None? ==> r == ServerError
    ensures r.Ok? || r == Forbidden || r == ServerError
  {
    match caller.role
    case TenantRole =>
      (match TenantOfUser(db.tenants, caller.id)
       case None => ServerError   // `tenant._id` of a null tenant throws
       case Some(t) => Ok(Filter(db.payments, (p: Payment) => p.tenant == t.id)))
    case Landlord | PropertyManager =>
      var ids := OverseenTenantIds(db, caller);
      Ok(Filter(db.payments, (p: Payment) => p.tenant in ids))
    case Admin => Ok(db.payments)
    case OtherRole(_) => Forbidden
  }

  /** A tenant sees exactly the payments of its first tenancy record. */
  lemma TenantSeesOwnPayments(db: Db, caller: Caller, t: Tenant, p: Payment)
    requires caller.role == TenantRole && TenantOfUser(db.tenants, caller.id) == Some(t)
    ensures ListPayments(db, caller).Ok?
    ensures p in ListPayments(db, caller).value <==> p in db.payments && p.tenant == t.id
  {
    var r := ListPayments(db, caller).value;
    if p in r {
      var i :| 0 <= i < |r| && r[i] == p;
    }
    if p in db.payments && p.tenant == t.id {
      var i :| 0 <= i < |db.payments| && db.payments[i] == p;
    }
  }

  /** The ids that the landlord and manager branches collect are those of the tenancies on
      properties the caller oversees. */
  lemma OverseenTenantIdsMember(db: Db, caller: Caller, id: Id)
    ensures id in OverseenTenantIds(db, caller) <==>
              exists t :: t in db.tenants && t.id == id && TenantOverseen(db, t, caller)
  {
    var overseen := Filter(db.tenants, (t: Tenant) => TenantOverseen(db, t, caller));
    var ids := OverseenTenantIds(db, caller);
    if id in ids {
      var i :| 0 <= i < |ids| && ids[i] == id;
      assert overseen[i] in db.tenants && overseen[i].id == id;
    }
    if exists t :: t in db.tenants && t.id == id && TenantOverseen(db, t, caller) {
      var t :| t in db.tenants && t.id == id && TenantOverseen(db, t, caller);
      var k :| 0 <= k < |db.tenants| && db.tenants[k] == t;
      var j :| 0 <= j < |overseen| && overseen[j] == t;
      assert ids[j] == id;
    }
  }

  /** A landlord or property manager sees exactly the payments of tenancies on properties
      it owns or manages. */
  lemma OverseerSeesTenancyPayments(db: Db, caller: Caller, p: Payment)
    requires caller.role == Landlord || caller.role == PropertyManager
    ensures ListPayments(db, caller).Ok?
    ensures p in ListPayments(db, caller).value <==>
              p in db.payments &&
              exists t :: t in db.tenants && t.id == p.tenant && TenantOverseen(db, t, caller)
  {
    OverseenTenantIdsMember(db, caller, p.tenant);
    var r := ListPayments(db, caller).value;
    if p in r {
      var i :| 0 <= i < |r| && r[i] == p;
    }
    if p in db.payments && p.tenant in OverseenTenantIds(db, caller) {
      var i :| 0 <= i < |db.payments| && db.payments[i] == p;
    }
  }

  // ---------------------------------------------------------------------------------------
  // POST /mpesa

  /** The express-validator checks: `amount` numeric, `phone` not empty. */
  predicate ValidMpesaRequest(req: MpesaRequest) {
    req.amount.Some? && |req.phone| > 0
  }

  /** `POST /mpesa` for a tenant caller: validate, find the caller's tenancy, save a new
      `mpesa` record with id `newId` and status `initial` (the schema default), push, and
      save the `CheckoutRequestID` onto the record. `reply` is what the gateway answers. */
  function Initiate(db: Db, newId: Id, initial: PaymentStatus, caller: Caller, req: MpesaRequest,
                    reply: GatewayReply): (r: Step<Initiated>)
    ensures r.db.tenants == db.tenants && r.db.properties == db.properties
    ensures !ValidMpesaRequest(req) ==> r == Step(db, BadRequest)
    ensures ValidMpesaRequest(req) && TenantOfUser(db.tenants, caller.id).None? ==> r == Step(db, BadRequest)
    ensures ValidMpesaRequest(req) && TenantOfUser(db.tenants, caller.id).Some? ==>
              && |r.db.payments| == |db.payments| + 1
              && r.db.payments[..|db.payments|] == db.payments
              && var p := r.db.payments[|db.payments|];
              && p.id == newId && p.tenant == TenantOfUser(db.tenants, caller.id).value.id
              && p.amount == req.amount.value && p.payMethod == Mpesa && p.status == initial
              && (reply.Token? ==> p.transactionId == Some(reply.checkoutRequestId) &&
                                   r.out == Ok(Initiated(p, reply.checkoutRequestId)))
              && (reply.Failure? ==> p.transactionId == None && r.out == BadRequest)
  {
    if !ValidMpesaRequest(req) then Step(db, BadRequest)
    else match TenantOfUser(db.tenants, caller.id)
      case None => Step(db, BadRequest)   // `tenant._id` of a null tenant throws before the save
      case Some(t) =>
        var saved := Payment(newId, t.id, req.amount.value, Mpesa, initial, None);
        match reply
        case Failure => Step(db.(payments := db.payments + [saved]), BadRequest)
        case Token(cid) =>
          var p := saved.(transactionId := Some(cid));
          Step(db.(payments := db.payments + [p]), Ok(Initiated(p, cid)))
  }

  /** Initiation keeps ids unique and generates only the fresh id it is given. */
  lemma InitiateKeepsIdsFresh(db: Db, newId: Id, initial: PaymentStatus, caller: Caller,
                              req: MpesaRequest, reply: GatewayReply)
    requires UniqueIds(db) && IdsBelow(db, newId)
    ensures UniqueIds(Initiate(db, newId, initial, caller, req, reply).db)
    ensures IdsBelow(Initiate(db, newId, initial, caller, req, reply).db, newId + 1)
  {
  }

  // ---------------------------------------------------------------------------------------
  // POST /mpesa/callback

  /** `resultCode === 0 ? 'completed' : 'failed'` */
  function StatusFromResultCode(code: ResultCode): (s: PaymentStatus)
    ensures s == Completed <==> code == JsonNumber(0)
    ensures s == Failed <==> code != JsonNumber(0)
  {
    if code == JsonNumber(0) then Completed else Failed
  }

  /** `POST /mpesa/callback`: find the first payment carrying the `CheckoutRequestID` and set
      its status from `ResultCode`, whatever its status was; acknowledge either way. */
  function Reconcile(db: Db, payload: CallbackPayload): (r: Step<Ack>)
    ensures r.db.tenants == db.tenants && r.db.properties == db.properties
    ensures payload.stkCallback.None? ==> r == Step(db, ServerError)
    ensures payload.stkCallback.Some? ==> r.out == Ok(CallbackReceived)
  {
    match payload.stkCallback
    case None => Step(db, ServerError)   // reading a field of a missing `stkCallback` throws
    case Some(cb) =>
      match PaymentByTransaction(db.payments, cb.checkoutRequestId)
      case None => Step(db, Ok(CallbackReceived))
      case Some(i) =>
        var updated := db.payments[i].(status := StatusFromResultCode(cb.resultCode));
        Step(db.(payments := db.payments[i := updated]), Ok(CallbackReceived))
  }

  /** A callback whose id no payment carries changes nothing and is still acknowledged. */
  lemma ReconcileUnmatched(db: Db, cb: StkCallback)
    requires forall i :: 0 <= i < |db.payments| ==> db.payments[i].transactionId != Some(cb.checkoutRequestId)
    ensures Reconcile(db, CallbackPayload(Some(cb))) == Step(db, Ok(CallbackReceived))
  {
  }

  /** A callback that matches sets the status of the first matching payment, and only that:
      `completed` exactly when `ResultCode` is the number 0, `failed` otherwise. */
  lemma ReconcileMatched(db: Db, cb: StkCallback, i: nat)
    requires i < |db.payments| && db.payments[i].transactionId == Some(cb.checkoutRequestId)
    requires forall j :: 0 <= j < i ==> db.payments[j].transactionId != Some(cb.checkoutRequestId)
    ensures var ps := Reconcile(db, CallbackPayload(Some(cb))).db.payments;
            && |ps| == |db.payments|
            && (ps[i].status == Completed <==> cb.resultCode == JsonNumber(0))
            && (ps[i].status == Failed <==> cb.resultCode != JsonNumber(0))
            && ps[i] == db.payments[i].(status := ps[i].status)
            && forall k :: 0 <= k < |ps| && k != i ==> ps[k] == db.payments[k]
  {
    var r := PaymentByTransaction(db.payments, cb.checkoutRequestId);
    assert r.Some? && r.value <= i;
  }

  /** Every field but `status`, of every payment, and the number of payments stay as they were. */
  ghost predicate SameExceptStatus(before: seq<Payment>, after: seq<Payment>) {
    |before| == |after| &&
    forall k :: 0 <= k < |before| ==> after[k] == before[k].(status := after[k].status)
  }

  /** The callback rewrites statuses only: ids, tenants, amounts, methods and transaction ids
      are never touched. */
  lemma ReconcileOnlyTouchesStatus(db: Db, payload: CallbackPayload)
    ensures SameExceptStatus(db.payments, Reconcile(db, payload).db.payments)
  {
  }

  /** The callback keeps ids unique and generates none. */
  lemma ReconcileKeepsIdsFresh(db: Db, payload: CallbackPayload, n: nat)
    requires UniqueIds(db) && IdsBelow(db, n)
    ensures UniqueIds(Reconcile(db, payload).db) && IdsBelow(Reconcile(db, payload).db, n)
  {
    var after := Reconcile(db, payload).db.payments;
    ReconcileOnlyTouchesStatus(db, payload);
    assert forall k :: 0 <= k < |after| ==> after[k].id == db.payments[k].id;
  }

  /** A callback's id picks the same payment before and after a change of statuses only. */
  lemma MatchSurvivesStatusChange(ps: seq<Payment>, qs: seq<Payment>, cid: string)
    requires SameExceptStatus(ps, qs)
    ensures PaymentByTransaction(qs, cid) == PaymentByTransaction(ps, cid)
  {
    FirstIndexAgrees(qs, ps, (p: Payment) => p.transactionId == Some(cid),
                             (p: Payment) => p.transactionId == Some(cid));
  }

  /** No pending-only guard: of two callbacks with the same `CheckoutRequestID`, the later
      one decides the status, whatever the earlier one wrote. */
  lemma {:induction false} ReconcileLastWins(db: Db, first: StkCallback, second: StkCallback)
    requires first.checkoutRequestId == second.checkoutRequestId
    ensures Reconcile(Reconcile(db, CallbackPayload(Some(first))).db, CallbackPayload(Some(second)))
         == Reconcile(db, CallbackPayload(Some(second)))
  {
    var mid := Reconcile(db, CallbackPayload(Some(first))).db;
    ReconcileOnlyTouchesStatus(db, CallbackPayload(Some(first)));
    MatchSurvivesStatusChange(db.payments, mid.payments, second.checkoutRequestId);
  }

  /** Redelivering the same callback changes nothing further. */
  lemma {:induction false} ReconcileIdempotent(db: Db, payload: CallbackPayload)
    ensures Reconcile(Reconcile(db, payload).db, payload) == Reconcile(db, payload)
  {
    if payload.stkCallback.Some? {
      ReconcileLastWins(db, payload.stkCallback.value, payload.stkCallback.value);
    }
  }

  /** A payment that a first callback completed is turned to failed by a later callback with
      a non-zero code: the terminal state is not protected. */
  lemma CompletedPaymentCanFail(db: Db, i: nat, cid: string)
    requires i < |db.payments| && db.payments[i].transactionId == Some(cid)
    requires forall j :: 0 <= j < i ==> db.payments[j].transactionId != Some(cid)
    ensures var once := Reconcile(db, CallbackPayload(Some(StkCallback(cid, JsonNumber(0))))).db;
            var twice := Reconcile(once, CallbackPayload(Some(StkCallback(cid, JsonNumber(1))))).db;
            once.payments[i].status == Completed && twice.payments[i].status == Failed
  {
    ReconcileMatched(db, StkCallback(cid, JsonNumber(0)), i);
    ReconcileLastWins(db, StkCallback(cid, JsonNumber(0)), StkCallback(cid, JsonNumber(1)));
    ReconcileMatched(db, StkCallback(cid, JsonNumber(1)), i);
  }

  /** The scenario of an accepted push followed by a success callback: when no earlier payment
      carries the token, the new record is the one the callback completes, and a second
      delivery leaves it completed. */
  lemma InitiateThenCallback(db: Db, newId: Id, initial: PaymentStatus, caller: Caller,
                             req: MpesaRequest, cid: string)
    requires ValidMpesaRequest(req) && TenantOfUser(db.tenants, caller.id).Some?
    requires forall j :: 0 <= j < |db.payments| ==> db.payments[j].transactionId != Some(cid)
    ensures var started := Initiate(db, newId, initial, caller, req, Token(cid)).db;
            var ack := CallbackPayload(Some(StkCallback(cid, JsonNumber(0))));
            var settled := Reconcile(started, ack).db;
            && settled.payments[..|db.payments|] == db.payments
            && settled.payments[|db.payments|] == started.payments[|db.payments|].(status := Completed)
            && Reconcile(settled, ack).db == settled
  {
    var started := Initiate(db, newId, initial, caller, req, Token(cid)).db;
    var ack := CallbackPayload(Some(StkCallback(cid, JsonNumber(0))));
    assert started.payments == db.payments + [started.payments[|db.payments|]];
    ReconcileMatched(started, StkCallback(cid, JsonNumber(0)), |db.payments|);
    ReconcileIdempotent(started, ack);
  }

  /** A push that failed leaves a record without a transaction id, which no callback carrying
      a string `CheckoutRequestID` can ever reach. */
  lemma FailedInitiationIsNeverReconciled(db: Db, newId: Id, initial: PaymentStatus,
                                          caller: Caller, req: MpesaRequest, payload: CallbackPayload)
    requires ValidMpesaRequest(req) && TenantOfUser(db.tenants, caller.id).Some?
    ensures var started := Initiate(db, newId, initial, caller, req, Failure).db;
            var later := Reconcile(started, payload).db;
            later.payments[|db.payments|] == started.payments[|db.payments|] &&
            later.payments[|db.payments|].transactionId == None
  {
  }

  // ---------------------------------------------------------------------------------------
  // POST /

  /** `body('method').isIn(['cash', 'bank'])` */
  function ManualMethod(m: string): (r: Option<PayMethod>)
    ensures r == Some(Cash) <==> m == "cash"
    ensures r == Some(Bank) <==> m == "bank"
    ensures r.None? <==> m != "cash" && m != "bank"
  {
    if m == "cash" then Some(Cash) else if m == "bank" then Some(Bank) else None
  }

  /** The express-validator checks of manual entry. */
  predicate ValidManualRequest(req: ManualRequest) {
    req.tenant.Some? && req.amount.Some? && ManualMethod(req.payMethod).Some?
  }

  /** `POST /` for an admin or property manager: record a cash or bank payment under `newId`,
      always `completed`, whatever status the body names. */
  function ManualEntry(db: Db, newId: Id, req: ManualRequest): (r: Step<Payment>)
    ensures r.db.tenants == db.tenants && r.db.properties == db.properties
    ensures !ValidManualRequest(req) ==> r == Step(db, BadRequest)
    ensures ValidManualRequest(req) ==>
              && r.out.Created?
              && r.db.payments == db.payments + [r.out.value]
              && r.out.value.id == newId && r.out.value.tenant == req.tenant.value
              && r.out.value.amount == req.amount.value
              && r.out.value.payMethod == ManualMethod(req.payMethod).value
              && r.out.value.status == Completed
              && r.out.value.transactionId == req.transactionId
  {
    if !ValidManualRequest(req) then Step(db, BadRequest)
    else
      var p := Payment(newId, req.tenant.value, req.amount.value,
                       ManualMethod(req.payMethod).value, Completed, req.transactionId);
      Step(db.(payments := db.payments + [p]), Created(p))
  }

  /** Manual entry keeps ids unique and generates only the fresh id it is given. */
  lemma ManualEntryKeepsIdsFresh(db: Db, newId: Id, req: ManualRequest)
    requires UniqueIds(db) && IdsBelow(db, newId)
    ensures UniqueIds(ManualEntry(db, newId, req).db)
    ensures IdsBelow(ManualEntry(db, newId, req).db, newId + 1)
  {
  }

  /** A manual payment whose body carried a `transactionId` that no earlier payment carries
      is reachable by the callback: a notification for that id sets the status of the
      `completed` cash or bank payment from its code, `failed` for a non-zero one. */
  lemma ManualPaymentCanBeReconciled(db: Db, newId: Id, req: ManualRequest, cb: StkCallback)
    requires ValidManualRequest(req) && req.transactionId == Some(cb.checkoutRequestId)
    requires forall j :: 0 <= j < |db.payments| ==> db.payments[j].transactionId != req.transactionId
    ensures var entered := ManualEntry(db, newId, req);
            var later := Reconcile(entered.db, CallbackPayload(Some(cb))).db.payments[|db.payments|];
            && entered.out.value.status == Completed
            && later == entered.out.value.(status := StatusFromResultCode(cb.resultCode))
            && (cb.resultCode != JsonNumber(0) ==> later.status == Failed)
  {
    var entered := ManualEntry(db, newId, req);
    ReconcileMatched(entered.db, cb, |db.payments|);
  }
}
