/** The three collections the routes work on (models/Tenant.js, models/Property.js and the
    payment record), the store snapshot, and the Mongoose look-ups the handlers issue. */
module Records {
  import opened Common
  import opened Seqs

  datatype PaymentStatus = Pending | Completed | Failed

  datatype PayMethod = Mpesa | Cash | Bank

  /** A payment document (`payMethod` is the `method` field); `amount` is only ever checked
      for being numeric. */
  datatype Payment = Payment(id: Id, tenant: Id, amount: int, payMethod: PayMethod,
                             status: PaymentStatus, transactionId: Option<string>)

  datatype TenantStatus = Active | Inactive

  /** A tenancy document: a user leasing a property. Lease dates are opaque day numbers. */
  datatype Tenant = Tenant(id: Id, user: Id, property: Id, leaseStart: int, leaseEnd: int,
                           rentAmount: int, deposit: int, status: TenantStatus)

  /** A property document; `tenants` is the roster of tenancy ids maintained by `$push`/`$pull`. */
  datatype Property = Property(id: Id, name: string, address: string, landlord: Id,
                               manager: Option<Id>, rentAmount: int,
                               description: Option<string>, tenants: seq<Id>)

  /** The contents of the three collections, each in natural (insertion) order. */
  datatype Db = Db(payments: seq<Payment>, tenants: seq<Tenant>, properties: seq<Property>)

  /** What one handler does: the store afterwards and the answer it sends. */
  datatype Step<+T> = Step(db: Db, out: Outcome<T>)

  /** No two documents of one collection share an `_id`. */
  ghost predicate UniqueIds(db: Db) {
    && (forall i, j :: 0 <= i < j < |db.payments| ==> db.payments[i].id != db.payments[j].id)
    && (forall i, j :: 0 <= i < j < |db.tenants| ==> db.tenants[i].id != db.tenants[j].id)
    && (forall i, j :: 0 <= i < j < |db.properties| ==> db.properties[i].id != db.properties[j].id)
  }

  /** Every id the store generated, including those on property rosters, is below `n`:
      `n` and everything after it are fresh. */
  ghost predicate IdsBelow(db: Db, n: nat) {
    && (forall i :: 0 <= i < |db.payments| ==> db.payments[i].id < n)
    && (forall i :: 0 <= i < |db.tenants| ==> db.tenants[i].id < n)
    && (forall i :: 0 <= i < |db.properties| ==> db.properties[i].id < n)
    && (forall i, k :: 0 <= i < |db.properties| && 0 <= k < |db.properties[i].tenants| ==>
          db.properties[i].tenants[k] < n)
  }

  /** `Payment.findOne({ transactionId: cid })` */
  function PaymentByTransaction(ps: seq<Payment>, cid: string): Option<nat> {
    FirstIndex(ps, (p: Payment) => p.transactionId == Some(cid))
  }

  /** `Tenant.findById(id)` */
  function TenantIndex(ts: seq<Tenant>, id: Id): Option<nat> {
    FirstIndex(ts, (t: Tenant) => t.id == id)
  }

  /** `Property.findById(id)` */
  function PropertyIndex(ps: seq<Property>, id: Id): Option<nat> {
    FirstIndex(ps, (pr: Property) => pr.id == id)
  }

  /** `Property.findById(id)`, as the document. */
  function PropertyById(ps: seq<Property>, id: Id): (r: Option<Property>)
    ensures r.Some? ==> r.value in ps && r.value.id == id
    ensures r.None? ==> forall i :: 0 <= i < |ps| ==> ps[i].id != id
  {
    match PropertyIndex(ps, id)
    case None => None
    case Some(i) => Some(ps[i])
  }

  /** `Tenant.findOne({ user })`: the first tenancy of that user. */
  function TenantOfUser(ts: seq<Tenant>, user: Id): (r: Option<Tenant>)
    ensures r.Some? ==> exists i :: 0 <= i < |ts| && ts[i] == r.value && r.value.user == user &&
                                    forall j :: 0 <= j < i ==> ts[j].user != user
    ensures r.None? ==> forall i :: 0 <= i < |ts| ==> ts[i].user != user
  {
    match FirstIndex(ts, (t: Tenant) => t.user == user)
    case None => None
    case Some(i) => Some(ts[i])
  }

  /** Whether the caller oversees a property in the sense the listing queries use:
      a landlord owns it (`landlord: req.user._id`), a property manager manages it
      (`manager: req.user._id`); other roles oversee nothing. */
  predicate Oversees(pr: Property, caller: Caller) {
    || (caller.role == Landlord && pr.landlord == caller.id)
    || (caller.role == PropertyManager && pr.manager == Some(caller.id))
  }

  /** With unique ids, `findById` finds the document that carries the id. */
  lemma PropertyByIdUnique(db: Db, j: nat)
    requires UniqueIds(db) && j < |db.properties|
    ensures PropertyById(db.properties, db.properties[j].id) == Some(db.properties[j])
  {
    var r := PropertyIndex(db.properties, db.properties[j].id);
    assert r.Some? && r.value <= j;
  }

  /** With unique ids, `findById` finds the tenancy that carries the id. */
  lemma TenantIndexUnique(db: Db, j: nat)
    requires UniqueIds(db) && j < |db.tenants|
    ensures TenantIndex(db.tenants, db.tenants[j].id) == Some(j)
  {
    var r := TenantIndex(db.tenants, db.tenants[j].id);
    assert r.Some? && r.value <= j;
  }
}
