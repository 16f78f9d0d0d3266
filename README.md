# Property management backend: payments, tenancies and properties

This project models the route handlers of a property-management REST backend, an Express
application over three MongoDB collections: payments, tenancies ("tenants") and properties.
The handlers serve four kinds of users: admins, property managers, landlords and tenants.

- **Payments.** A tenant starts an M-Pesa payment. The handler saves an `mpesa` payment
  record and asks the Daraja gateway for an STK push. It then stores the gateway's
  `CheckoutRequestID` on the record as `transactionId`. The gateway later posts a callback
  that sets the status of the record carrying that id: `completed` for `ResultCode` 0,
  `failed` otherwise. Admins and managers can also enter `cash` and `bank` payments, which
  are always stored as `completed`. The listing shows each role its own slice.
- **Tenancies.** Creating a tenancy pushes its id onto the roster (`tenants` array) of the
  property it names, and deleting it pulls the id off. Reads are checked against the
  caller's role and ownership.
- **Properties.** Role-filtered listing, ownership checks on reads by id, and
  create/update/delete. Deleting a property does not cascade to its tenancies.

Layout:

- `Common`: ids, callers and roles, request fields, and the HTTP outcome
  (`Ok`/`Created`/`BadRequest`/`Forbidden`/`NotFound`/`ServerError`).
- `Seqs`: the sequence operations that Mongoose queries become: first match, filter,
  map and removal.
- `Records`: the documents, the store snapshot `Db`, and the look-ups the handlers
  issue.
- `Gateway`: `StkPush`, a nondeterministic method answering `Token(checkoutRequestId)`
  or `Failure`. It stands for the Daraja client.
- `Payments`, `Tenants` and `Properties` define each handler as a function from the store
  and the request to the new store and the answer (`Step`). The lemmas about the handlers
  are proved there.
- `Store` is a class holding the three collections as sequence fields, an id counter and
  the schema's initial status of an `mpesa` record. It has one method per route handler.
  Each mutating method updates the fields in place. Its postcondition states that the new
  state and the answer are those of the handler's step function. It also keeps ids unique
  and below the counter.
- The role gates of the `roleCheck` middleware are the preconditions of the `Store`
  methods. The caller is a given `(id, role)`.

Behaviours of the code that the model keeps, though a payment flow would usually avoid them:

- **Callback overwrite.** The callback overwrites the status unconditionally. There is no
  pending-only guard and no compare-and-swap, so a later callback turns a `completed`
  payment into a `failed` one (`CompletedPaymentCanFail`).
- **Manual entries can be reconciled.** Manual entry copies every body field into the
  record, including a `transactionId`. A callback can therefore reach a manual payment
  (`ManualPaymentCanBeReconciled`).
- **Amounts.** Amounts are only checked for being numeric. Zero and negative amounts are
  accepted.
- **Initial mpesa status.** The status a new `mpesa` record starts in is a parameter of the
  store, `mpesaInitialStatus`. The payment schema that sets it is not part of this model.

Edge cases of the code that the model keeps:

- **Malformed `:id`.** A path id that is not an ObjectId gives 500 on `GET` and `DELETE`,
  but 400 on `PUT`.
- **Missing tenancy record.** A tenant without a tenancy record gets 500 from the payment
  listing and 400 from initiation. In both cases no record is created.
- **Dereference crashes.** A landlord or manager reading a tenancy whose property is gone
  gets 500. So does a manager reading a tenancy or property that has no manager.
- **Unchecked roles.** A role that the handlers do not name reads any tenancy by id, yet
  gets 403 on the listings. A tenant reads any property by id, yet gets 403 on the property
  listing.

## Model

| member | source | states |
|---|---|---|
| Records.PropertyById | backend/routes/tenants.js:71 | `findById` returns a property carrying the id, or none exists |
| Records.TenantOfUser | backend/routes/payments.js:63 | `findOne({ user })` returns the first tenancy of the user, or the user has none |
| Records.PropertyByIdUnique | backend/routes/properties.js:51 | with unique ids, `findById` returns the very document that carries the id |
| Records.TenantIndexUnique | backend/routes/tenants.js:62 | with unique ids, `findById` finds the tenancy that carries the id |
| Payments.ListPayments | backend/routes/payments.js:18-49 | admin gets every payment; an unnamed role gets 403; a tenant with no tenancy record gets 500; nothing else is answered |
| Payments.TenantSeesOwnPayments | backend/routes/payments.js:21-23 | a tenant lists exactly the payments of its (first) tenancy record |
| Payments.OverseenTenantIdsMember | backend/routes/payments.js:26-30 | the ids collected by the populate-match-filter are exactly those of tenancies on properties the caller owns or manages |
| Payments.OverseerSeesTenancyPayments | backend/routes/payments.js:24-39 | a landlord or manager lists exactly the payments of tenancies on properties it owns or manages |
| Payments.Initiate | backend/routes/payments.js:52-89 | invalid amount or phone, or no tenancy record: 400 and nothing saved; otherwise exactly one `mpesa` record is appended for the caller's tenancy with the initial status; a token becomes its `transactionId` and the answer; a failed push leaves the record without one and answers 400 |
| Payments.InitiateKeepsIdsFresh | backend/routes/payments.js:66-71 | initiation keeps ids unique and uses only the fresh id it is given |
| Payments.StatusFromResultCode | backend/routes/payments.js:100-104 | `completed` exactly when `ResultCode` is the number 0, `failed` otherwise |
| Payments.Reconcile | backend/routes/payments.js:92-112 | tenancies and properties never change; a missing `stkCallback` is 500; otherwise the answer is the acknowledgement |
| Payments.ReconcileUnmatched | backend/routes/payments.js:98-108 | a callback whose id no payment carries leaves the store unchanged and is acknowledged |
| Payments.ReconcileMatched | backend/routes/payments.js:98-105 | a matched callback sets the first matching payment's status from the code and changes no other field and no other payment |
| Payments.ReconcileOnlyTouchesStatus | backend/routes/payments.js:98-106 | the callback changes statuses only, and keeps the number of payments |
| Payments.ReconcileKeepsIdsFresh | backend/routes/payments.js:98-106 | the callback keeps ids unique and creates none |
| Payments.MatchSurvivesStatusChange | backend/routes/payments.js:98 | the lookup by `transactionId` picks the same payment before and after a status-only change |
| Payments.ReconcileLastWins | backend/routes/payments.js:99-105 | of two callbacks for the same id, the later alone decides the outcome: no guard on the current status |
| Payments.ReconcileIdempotent | backend/routes/payments.js:99-105 | redelivering a callback changes nothing further |
| Payments.CompletedPaymentCanFail | backend/routes/payments.js:99-105 | a payment a first callback completed is set to `failed` by a later non-zero callback |
| Payments.InitiateThenCallback | backend/routes/payments.js:74-105 | after an accepted push, the success callback completes exactly the new record, and a second delivery leaves it completed |
| Payments.FailedInitiationIsNeverReconciled | backend/routes/payments.js:71-106 | the record left by a failed push carries no `transactionId`, and no callback carrying a string id ever changes it |
| Payments.ManualMethod | backend/routes/payments.js:118 | only `cash` and `bank` are accepted, and each maps to its method |
| Payments.ManualEntry | backend/routes/payments.js:115-133 | failing checks give 400 and no change; otherwise one record is appended with the body's tenant, amount, method and `transactionId`, and status `completed` whatever the body said |
| Payments.ManualEntryKeepsIdsFresh | backend/routes/payments.js:126-128 | manual entry keeps ids unique and uses only the fresh id |
| Payments.ManualPaymentCanBeReconciled | backend/routes/payments.js:98-128 | in any store where no earlier payment carries the id, a manual payment entered with a `transactionId` is `completed`, and a callback for that id sets its status from the code: `failed` for a non-zero one |
| Tenants.ListTenants | backend/routes/tenants.js:10-32 | admin gets every tenancy, an unnamed role 403, and nothing else is answered |
| Tenants.TenantSeesOwnTenancies | backend/routes/tenants.js:21-22 | a tenant lists exactly the tenancies whose `user` is the caller |
| Tenants.OverseerSeesTenancies | backend/routes/tenants.js:13-20 | a landlord or manager lists exactly the tenancies on properties it owns or manages |
| Tenants.GetTenant | backend/routes/tenants.js:60-86 | bad id 500, missing 404; only tenants, landlords and managers are ever refused; a tenant reads only its own tenancy, a landlord or manager only one on a property it owns or manages |
| Tenants.GetTenantAgreesWithList | backend/routes/tenants.js:13-82 | for the four registered roles, a read by id succeeds exactly when the listing shows the tenancy |
| Tenants.CreateTenant | backend/routes/tenants.js:35-57 | failing checks or a status the schema rejects: 400 and no change; otherwise one tenancy appended with the body's fields and status `active` by default; payments unchanged |
| Tenants.CreateTenantLinksProperty | backend/routes/tenants.js:49-53 | the new id is appended to the roster of the named property only; a missing property changes no roster |
| Tenants.CreateTenantKeepsIdsFresh | backend/routes/tenants.js:49-52 | creation keeps ids unique and uses only the fresh id |
| Tenants.UpdateTenant | backend/routes/tenants.js:89-99 | bad id or rejected body: 400; missing: 404 with no change; an existing id with an accepted patch always answers 200 with its patched version, which replaces only that tenancy; no roster is touched |
| Tenants.UpdateTenantKeepsIdsFresh | backend/routes/tenants.js:91 | an update keeps ids unique and creates none |
| Tenants.UpdateThenGetTenant | backend/routes/tenants.js:62-91 | after an update, an admin reading the id gets the updated tenancy |
| Tenants.DeleteTenant | backend/routes/tenants.js:102-114 | bad id 500, missing 404 with no change; an existing id always answers 200, and the answer is a tenancy that carried the id and has been removed |
| Tenants.DeleteTenantKeepsIdsFresh | backend/routes/tenants.js:104-109 | a deletion keeps ids unique and creates none |
| Tenants.DeleteTenantUnlinks | backend/routes/tenants.js:104-111 | afterwards no tenancy has the id; every occurrence of it leaves its property's roster, and every other property stays as it was |
| Tenants.PushThenPull | backend/routes/tenants.js:52-109 | pulling a fresh id right after pushing it restores every roster |
| Tenants.CreateThenDeleteTenant | backend/routes/tenants.js:49-110 | deleting a tenancy just created restores the store and returns the tenancy |
| Properties.ListProperties | backend/routes/properties.js:9-25 | admin gets every property; tenants and unnamed roles get 403 |
| Properties.OverseerSeesProperties | backend/routes/properties.js:12-15 | a landlord lists exactly the properties it owns, a manager exactly those it manages |
| Properties.GetProperty | backend/routes/properties.js:49-66 | bad id 500, missing 404; only landlords and managers are ever refused; a landlord reads only a property it owns, a manager only one it manages (ownership compared by id) |
| Properties.GetPropertyAsWritten | backend/routes/properties.js:51-61 | as written, no landlord or manager ever reads a property by id; every other role gets what `GetProperty` answers |
| Properties.GetPropertyAsWrittenRefusesOwner | backend/routes/properties.js:51-58 | the owning landlord, whose listing shows the property, is refused as written but admitted by the id comparison |
| Properties.GetPropertyUnchecked | backend/routes/properties.js:56-62 | tenants, admins and unnamed roles read every existing property |
| Properties.GetPropertyAgreesWithList | backend/routes/properties.js:12-62 | a landlord or manager reads a property by id exactly when its listing shows it |
| Properties.CreateProperty | backend/routes/properties.js:28-46 | empty name or address, non-numeric rent, bad landlord id, or a field the schema rejects: 400 and no change; otherwise one property appended with the body's fields and an empty roster |
| Properties.CreatePropertyKeepsIdsFresh | backend/routes/properties.js:40-41 | creation keeps ids unique and uses only the fresh id |
| Properties.UpdateProperty | backend/routes/properties.js:69-79 | bad id or rejected body: 400; missing: 404 with no change; an existing id with an accepted patch always answers 200 with its patched version, which replaces only that property; tenancies unchanged |
| Properties.UpdatePropertyKeepsIdsFresh | backend/routes/properties.js:71 | an update keeps ids unique and rosters as they were |
| Properties.UpdateThenGetProperty | backend/routes/properties.js:51-71 | after an update, an admin reading the id gets the updated property |
| Properties.DeleteProperty | backend/routes/properties.js:82-92 | bad id 500, missing 404 with no change; an existing id always answers 200, and only that property is removed; payments and tenancies unchanged |
| Properties.DeletePropertyKeepsIdsFresh | backend/routes/properties.js:84 | a deletion keeps ids unique |
| Properties.CreateThenDeleteProperty | backend/routes/properties.js:40-88 | deleting a property just created restores the store |
| Properties.DeletePropertyStrandsTenancies | backend/routes/properties.js:84-88 | no cascade: tenancies keep naming the deleted property, and a landlord reading one of them by id gets 500 |
| Store.Store.ListPayments | backend/routes/payments.js:18-49 | answers exactly `Payments.ListPayments` on the current collections and changes nothing; what the answer means is proved about `Payments.ListPayments` and the lemmas beside it, not here |
| Store.Store.InitiateMpesa | backend/routes/payments.js:52-89 | saves, calls the gateway only once the checks pass, attaches the token in place; ends in `Payments.Initiate` of the old state with the gateway's reply |
| Store.Store.MpesaCallback | backend/routes/payments.js:92-112 | rewrites the matched record's status in place; ends in `Payments.Reconcile` of the old state |
| Store.Store.RecordManualPayment | backend/routes/payments.js:115-133 | builds the record, forces `completed`, appends it; ends in `Payments.ManualEntry` of the old state |
| Store.Store.ListTenants | backend/routes/tenants.js:10-32 | answers exactly `Tenants.ListTenants` on the current collections and changes nothing; what the answer means is proved about `Tenants.ListTenants` and the lemmas beside it, not here |
| Store.Store.GetTenant | backend/routes/tenants.js:60-86 | answers exactly `Tenants.GetTenant` on the current collections and changes nothing; what the answer means is proved about `Tenants.GetTenant` and the lemmas beside it, not here |
| Store.Store.CreateTenant | backend/routes/tenants.js:35-57 | saves the tenancy and pushes its id; ends in `Tenants.CreateTenant` of the old state |
| Store.Store.UpdateTenant | backend/routes/tenants.js:89-99 | replaces the tenancy in place; ends in `Tenants.UpdateTenant` of the old state |
| Store.Store.DeleteTenant | backend/routes/tenants.js:102-114 | removes the tenancy and pulls its id; ends in `Tenants.DeleteTenant` of the old state |
| Store.Store.ListProperties | backend/routes/properties.js:9-25 | answers exactly `Properties.ListProperties` on the current collections and changes nothing; what the answer means is proved about `Properties.ListProperties` and the lemmas beside it, not here |
| Store.Store.GetProperty | backend/routes/properties.js:49-66 | answers exactly `Properties.GetProperty` on the current collections and changes nothing; what the answer means is proved about `Properties.GetProperty` and the lemmas beside it, not here |
| Store.Store.CreateProperty | backend/routes/properties.js:28-46 | appends the property; ends in `Properties.CreateProperty` of the old state |
| Store.Store.UpdateProperty | backend/routes/properties.js:69-79 | replaces the property in place; ends in `Properties.UpdateProperty` of the old state |
| Store.Store.DeleteProperty | backend/routes/properties.js:82-92 | removes the property; ends in `Properties.DeleteProperty` of the old state |

## Left out

- The authentication routes (`backend/routes/auth.js`): password hashing, token signing and
  field checks are calls into libraries. The role names they register are the `Role`
  datatype.
- The `auth` and `roleCheck` middleware are not part of this model. The caller is a
  parameter, and the role gates are preconditions of the `Store` methods.
- The Daraja client: network I/O with credentials from the environment. `Gateway.StkPush`
  answers a token or a failure, chosen nondeterministically.
- The case of a gateway reply without a `CheckoutRequestID`, which would store an undefined
  `transactionId`, is not modelled.
- A callback's `CheckoutRequestID` is taken to be a string. A callback without one, or with
  an object such as `{"$ne": null}`, turns into a different `findOne` query (one that can
  match a record without a `transactionId`, or an operator). That case is not modelled, so
  `FailedInitiationIsNeverReconciled` speaks of string ids only.
- The payment schema (`backend/models/Payment.js`) is not part of this model. The initial
  status of an `mpesa` record is the store parameter `mpesaInitialStatus`.
- User records: populated `user`, `landlord` and `manager` documents are taken to exist. The
  500 that a dangling user reference would cause is not modelled.
- Populated-document comparisons are modelled as id equality, except in the as-written
  member recorded under Findings.
- Database failures, lost saves and persistence errors are not modelled. A `save` or update
  fails only where the model says the schema rejects a field (`Malformed`).
- Concurrency is not modelled. Each handler is one atomic step, so the race between a
  callback and the token attach, and simultaneous duplicate callbacks, are outside the
  model.
- Timestamps and ISO-8601 date parsing: lease dates are opaque integers, and a date that
  fails the check is an absent field.
- Amounts are integers. Floating-point amounts are not modelled, and amounts are never
  computed with.
- The response bodies' populated views (`populate('tenant')`, `populate('user property')`)
  are not modelled. Answers carry the stored documents.
- The `tenants` array in the body of property create and update requests is not modelled.
  Rosters change only through tenancy create and delete.
- A client-supplied `_id` in the body of `POST /payments`, `POST /tenants` and
  `POST /properties` is not modelled. `new Payment(req.body)`, `new Tenant(req.body)` and
  `new Property(req.body)` would keep it, and a duplicate one would fail the save with 400.
  The model always assigns the store's next fresh id.

## Findings

| source | as written | input that shows it | evidently intended | confidence | as-written member | corrected member |
|---|---|---|---|---|---|---|
| backend/routes/properties.js:51-61 | `landlord` and `manager` are populated before the checks. `property.landlord.toString()` is then the printed user document, never the bare id, so it never equals the caller's id. | A landlord requests `GET /properties/:id` for a property it owns and lists: the answer is 403. | Compare the referenced user ids, as the listing queries and `tenants.js` do, and let the owner or manager read the property. | medium, not executed | Properties.GetPropertyAsWrittenRefusesOwner | Properties.GetPropertyAgreesWithList |
