/** The database behind the services: one table per Prisma model, each a map
    from primary key to row. Every tenant-owned row carries its `tenantId`;
    properties, units and renters are soft-deleted through `deletedAt`. */
module Store {
  import opened Common
  import opened TenantScope
  import opened MpesaDto

  datatype UnitStatus = VACANT | RESERVED | OCCUPIED | VACATING | MAINTENANCE
  datatype RenterStatus = ACTIVE | PAST | EVICTED
  datatype PaymentStatus = PENDING | COMPLETED | FAILED

  datatype Tenant = Tenant(id: Id, name: string, email: string)

  datatype User = User(id: Id, tenantId: Id, email: string, password: string, role: Role)

  datatype Property = Property(
    id: Id, tenantId: Id, name: string, address: string, kind: string,
    createdAt: Timestamp, deletedAt: Option<Timestamp>)

  datatype Unit = Unit(
    id: Id, tenantId: Id, propertyId: Id, name: string, rentAmount: int,
    status: UnitStatus, deletedAt: Option<Timestamp>)

  datatype Renter = Renter(
    id: Id, tenantId: Id, firstName: string, lastName: string, phone: string,
    nationalId: string, emergencyContact: Option<string>, status: RenterStatus,
    createdAt: Timestamp, deletedAt: Option<Timestamp>)

  datatype RentalAgreement = RentalAgreement(
    id: Id, tenantId: Id, unitId: Id, renterId: Id, startDate: Timestamp,
    endDate: Option<Timestamp>, rentAmount: int, deposit: int, isActive: bool)

  datatype RentInvoice = RentInvoice(
    id: Id, tenantId: Id, rentalAgreementId: Id, amount: int, dueDate: Timestamp,
    isPaid: bool, lateFeeApplied: int)

  datatype Payment = Payment(
    id: Id, tenantId: Id, rentalAgreementId: Id, rentInvoiceId: Option<Id>,
    amount: int, channel: string, checkoutRequestId: Option<string>,
    status: PaymentStatus, mpesaReceipt: Option<string>,
    rawResponse: Option<MpesaCallbackDto>)

  datatype Tables = Tables(
    tenants: map<Id, Tenant>,
    users: map<Id, User>,
    properties: map<Id, Property>,
    units: map<Id, Unit>,
    renters: map<Id, Renter>,
    agreements: map<Id, RentalAgreement>,
    invoices: map<Id, RentInvoice>,
    payments: map<Id, Payment>)

  // ----- integrity the database and the services maintain -----

  /** Every row is stored under its own primary key. */
  ghost predicate Keyed(db: Tables) {
    && (forall id :: id in db.tenants ==> db.tenants[id].id == id)
    && (forall id :: id in db.users ==> db.users[id].id == id)
    && (forall id :: id in db.properties ==> db.properties[id].id == id)
    && (forall id :: id in db.units ==> db.units[id].id == id)
    && (forall id :: id in db.renters ==> db.renters[id].id == id)
    && (forall id :: id in db.agreements ==> db.agreements[id].id == id)
    && (forall id :: id in db.invoices ==> db.invoices[id].id == id)
    && (forall id :: id in db.payments ==> db.payments[id].id == id)
  }

  /** An active agreement's unit exists, belongs to the same tenant and is OCCUPIED. */
  ghost predicate Occupancy(db: Tables) {
    forall id :: id in db.agreements && db.agreements[id].isActive ==>
      var a := db.agreements[id];
      a.unitId in db.units && db.units[a.unitId].status == OCCUPIED && db.units[a.unitId].tenantId == a.tenantId
  }

  /** At most one active agreement per unit. */
  ghost predicate SingleActive(db: Tables) {
    forall i, j ::
      (i in db.agreements && j in db.agreements && db.agreements[i].isActive
       && db.agreements[j].isActive && db.agreements[i].unitId == db.agreements[j].unitId) ==> i == j
  }

  /** A payment's invoice reference points at a stored invoice (foreign key)
      of the payment's own tenant. */
  ghost predicate PaymentsLinked(db: Tables) {
    forall id :: id in db.payments && db.payments[id].rentInvoiceId.Some? ==>
      var inv := db.payments[id].rentInvoiceId.value;
      inv in db.invoices && db.invoices[inv].tenantId == db.payments[id].tenantId
  }

  /** `checkoutRequestId` is a unique column: the callback updates by it. */
  ghost predicate CheckoutIdsUnique(db: Tables) {
    forall i, j ::
      (i in db.payments && j in db.payments && db.payments[i].checkoutRequestId.Some?
       && db.payments[i].checkoutRequestId == db.payments[j].checkoutRequestId) ==> i == j
  }

  /** `email` is a unique column of users: login looks a user up by it. */
  ghost predicate EmailsUnique(db: Tables) {
    forall i, j :: i in db.users && j in db.users && db.users[i].email == db.users[j].email ==> i == j
  }

  ghost predicate Consistent(db: Tables) {
    && Keyed(db)
    && Occupancy(db)
    && SingleActive(db)
    && PaymentsLinked(db)
    && CheckoutIdsUnique(db)
    && EmailsUnique(db)
  }

  /** A unit that is not OCCUPIED has no active agreement: the vacancy check is
      what keeps a second agreement off an occupied unit. */
  lemma NotOccupiedMeansFree(db: Tables, unitId: Id)
    requires Occupancy(db)
    requires unitId in db.units && db.units[unitId].status != OCCUPIED
    ensures forall id :: id in db.agreements && db.agreements[id].isActive ==> db.agreements[id].unitId != unitId
  {
    forall id | id in db.agreements && db.agreements[id].isActive
      ensures db.agreements[id].unitId != unitId
    {
    }
  }

  // ----- tenant confinement -----

  // No row of a tenant other than `t` is changed, removed or added: one
  // predicate per table, since the rows share no common type.

  ghost predicate PropertiesUntouched(before: map<Id, Property>, after: map<Id, Property>, t: Id) {
    && (forall id :: id in before && before[id].tenantId != t ==> id in after && after[id] == before[id])
    && (forall id :: id in after && after[id].tenantId != t ==> id in before && before[id] == after[id])
  }

  ghost predicate UnitsUntouched(before: map<Id, Unit>, after: map<Id, Unit>, t: Id) {
    && (forall id :: id in before && before[id].tenantId != t ==> id in after && after[id] == before[id])
    && (forall id :: id in after && after[id].tenantId != t ==> id in before && before[id] == after[id])
  }

  ghost predicate RentersUntouched(before: map<Id, Renter>, after: map<Id, Renter>, t: Id) {
    && (forall id :: id in before && before[id].tenantId != t ==> id in after && after[id] == before[id])
    && (forall id :: id in after && after[id].tenantId != t ==> id in before && before[id] == after[id])
  }

  ghost predicate AgreementsUntouched(before: map<Id, RentalAgreement>, after: map<Id, RentalAgreement>, t: Id) {
    && (forall id :: id in before && before[id].tenantId != t ==> id in after && after[id] == before[id])
    && (forall id :: id in after && after[id].tenantId != t ==> id in before && before[id] == after[id])
  }

  ghost predicate InvoicesUntouched(before: map<Id, RentInvoice>, after: map<Id, RentInvoice>, t: Id) {
    && (forall id :: id in before && before[id].tenantId != t ==> id in after && after[id] == before[id])
    && (forall id :: id in after && after[id].tenantId != t ==> id in before && before[id] == after[id])
  }

  ghost predicate PaymentsUntouched(before: map<Id, Payment>, after: map<Id, Payment>, t: Id) {
    && (forall id :: id in before && before[id].tenantId != t ==> id in after && after[id] == before[id])
    && (forall id :: id in after && after[id].tenantId != t ==> id in before && before[id] == after[id])
  }

  /** A request under tenant `t` changed only `t`'s rows, and no tenant or user. */
  ghost predicate Confined(before: Tables, after: Tables, t: Id) {
    && after.tenants == before.tenants
    && after.users == before.users
    && PropertiesUntouched(before.properties, after.properties, t)
    && UnitsUntouched(before.units, after.units, t)
    && RentersUntouched(before.renters, after.renters, t)
    && AgreementsUntouched(before.agreements, after.agreements, t)
    && InvoicesUntouched(before.invoices, after.invoices, t)
    && PaymentsUntouched(before.payments, after.payments, t)
  }

  // ----- single-row writes -----

  /** Writing one row of tenant `t`, new or already `t`'s, touches only `t`'s rows. */
  lemma PutPropertyConfined(db: Tables, p: Property)
    requires p.id in db.properties ==> db.properties[p.id].tenantId == p.tenantId
    ensures Confined(db, db.(properties := db.properties[p.id := p]), p.tenantId)
  {
    assert PropertiesUntouched(db.properties, db.properties[p.id := p], p.tenantId);
  }

  lemma PutPropertyConsistent(db: Tables, p: Property)
    requires Consistent(db)
    requires p.id in db.properties ==> db.properties[p.id].tenantId == p.tenantId
    ensures Consistent(db.(properties := db.properties[p.id := p]))
  {
    var db' := db.(properties := db.properties[p.id := p]);
    assert Keyed(db');
  }

  /** The same for renters. */
  lemma PutRenterConfined(db: Tables, r: Renter)
    requires r.id in db.renters ==> db.renters[r.id].tenantId == r.tenantId
    ensures Confined(db, db.(renters := db.renters[r.id := r]), r.tenantId)
  {
    assert RentersUntouched(db.renters, db.renters[r.id := r], r.tenantId);
  }

  lemma PutRenterConsistent(db: Tables, r: Renter)
    requires Consistent(db)
    requires r.id in db.renters ==> db.renters[r.id].tenantId == r.tenantId
    ensures Consistent(db.(renters := db.renters[r.id := r]))
  {
    var db' := db.(renters := db.renters[r.id := r]);
    assert Keyed(db');
  }

  /** The same for units. */
  lemma PutUnitConfined(db: Tables, u: Unit)
    requires u.id in db.units ==> db.units[u.id].tenantId == u.tenantId
    ensures Confined(db, db.(units := db.units[u.id := u]), u.tenantId)
  {
    assert UnitsUntouched(db.units, db.units[u.id := u], u.tenantId);
  }

  lemma PutUnitConsistent(db: Tables, u: Unit)
    requires Consistent(db)
    requires u.id in db.units ==> db.units[u.id].tenantId == u.tenantId && db.units[u.id].status == u.status
    ensures Consistent(db.(units := db.units[u.id := u]))
  {
    var db' := db.(units := db.units[u.id := u]);
    assert Keyed(db');
    assert Occupancy(db');
  }

  /** The same for invoices. */
  lemma PutInvoiceConfined(db: Tables, i: RentInvoice)
    requires i.id in db.invoices ==> db.invoices[i.id].tenantId == i.tenantId
    ensures Confined(db, db.(invoices := db.invoices[i.id := i]), i.tenantId)
  {
    assert InvoicesUntouched(db.invoices, db.invoices[i.id := i], i.tenantId);
  }

  lemma PutInvoiceConsistent(db: Tables, i: RentInvoice)
    requires Consistent(db)
    requires i.id in db.invoices ==> db.invoices[i.id].tenantId == i.tenantId
    ensures Consistent(db.(invoices := db.invoices[i.id := i]))
  {
    var db' := db.(invoices := db.invoices[i.id := i]);
    assert Keyed(db');
    assert PaymentsLinked(db');
  }

  /** Writing a property row of tenant `t` (a new one, or one `t` already owns)
      keeps the tables consistent and touches only `t`'s rows. */
  lemma PutProperty(db: Tables, p: Property)
    requires Consistent(db)
    requires p.id in db.properties ==> db.properties[p.id].tenantId == p.tenantId
    ensures Consistent(db.(properties := db.properties[p.id := p]))
    ensures Confined(db, db.(properties := db.properties[p.id := p]), p.tenantId)
  {
    PutPropertyConfined(db, p);
    PutPropertyConsistent(db, p);
  }

  /** The same for renters. */
  lemma PutRenter(db: Tables, r: Renter)
    requires Consistent(db)
    requires r.id in db.renters ==> db.renters[r.id].tenantId == r.tenantId
    ensures Consistent(db.(renters := db.renters[r.id := r]))
    ensures Confined(db, db.(renters := db.renters[r.id := r]), r.tenantId)
  {
    PutRenterConfined(db, r);
    PutRenterConsistent(db, r);
  }

  /** The same for units, as long as an existing unit keeps its status, which
      the occupancy of its agreements depends on. */
  lemma PutUnit(db: Tables, u: Unit)
    requires Consistent(db)
    requires u.id in db.units ==> db.units[u.id].tenantId == u.tenantId && db.units[u.id].status == u.status
    ensures Consistent(db.(units := db.units[u.id := u]))
    ensures Confined(db, db.(units := db.units[u.id := u]), u.tenantId)
  {
    PutUnitConfined(db, u);
    PutUnitConsistent(db, u);
  }

  /** The same for invoices; payments link to them by id and tenant. */
  lemma PutInvoice(db: Tables, i: RentInvoice)
    requires Consistent(db)
    requires i.id in db.invoices ==> db.invoices[i.id].tenantId == i.tenantId
    ensures Consistent(db.(invoices := db.invoices[i.id := i]))
    ensures Confined(db, db.(invoices := db.invoices[i.id := i]), i.tenantId)
  {
    PutInvoiceConfined(db, i);
    PutInvoiceConsistent(db, i);
  }

  /** The tables, as an object the services hold a reference to and mutate. */
  class Store {
    var tenants: map<Id, Tenant>
    var users: map<Id, User>
    var properties: map<Id, Property>
    var units: map<Id, Unit>
    var renters: map<Id, Renter>
    var agreements: map<Id, RentalAgreement>
    var invoices: map<Id, RentInvoice>
    var payments: map<Id, Payment>

    constructor()
      ensures State() == Tables(map[], map[], map[], map[], map[], map[], map[], map[])
      ensures Valid()
    {
      tenants, users, properties, units := map[], map[], map[], map[];
      renters, agreements, invoices, payments := map[], map[], map[], map[];
    }

    function State(): Tables
      reads this
    {
      Tables(tenants, users, properties, units, renters, agreements, invoices, payments)
    }

    ghost predicate Valid()
      reads this
    {
      Consistent(State())
    }
  }

  // ----- stored rows as the scoped query layer sees them -----

  function NullableTime(d: Option<Timestamp>): Value {
    if d.Some? then Num(d.value) else Null
  }

  function PropertyRow(p: Property): Obj {
    map["id" := Str(p.id), "tenantId" := Str(p.tenantId), "deletedAt" := NullableTime(p.deletedAt)]
  }

  function UnitRow(u: Unit): Obj {
    map["id" := Str(u.id), "tenantId" := Str(u.tenantId), "propertyId" := Str(u.propertyId),
        "deletedAt" := NullableTime(u.deletedAt)]
  }

  function RenterRow(r: Renter): Obj {
    map["id" := Str(r.id), "tenantId" := Str(r.tenantId), "phone" := Str(r.phone),
        "deletedAt" := NullableTime(r.deletedAt)]
  }

  function AgreementRow(a: RentalAgreement): Obj {
    map["id" := Str(a.id), "tenantId" := Str(a.tenantId), "isActive" := Bool(a.isActive)]
  }

  function Filter(where: Obj): Args {
    Args(Some(where), None, None, None, map[])
  }

  function Scoped(model: string, where: Obj, t: Id): Obj {
    Spread(ScopeArgs(model, "findFirst", Filter(where), Some(TenantContext(t))).where)
  }

  /** `findFirst({ where: { id, deletedAt: null } })` on properties, through the
      scoping layer, selects exactly the live property with that id owned by `t`. */
  lemma PropertyLookupScoped(p: Property, id: Id, t: Id)
    requires t != ""
    ensures Matches(PropertyRow(p), Scoped("Property", map["id" := Str(id), "deletedAt" := Null], t))
        <==> p.id == id && p.deletedAt.None? && p.tenantId == t
  {
    var w := map["id" := Str(id), "deletedAt" := Null];
    ScopedFilterSelects("Property", "findFirst", Filter(w), t, PropertyRow(p));
    assert w - {TenantKey} == w;
    assert "id" in w && "deletedAt" in w;
  }

  /** The same for units, filtered by `id` (the lookup before an update) or
      by `propertyId` (the listing of a property's units). */
  lemma UnitLookupScoped(u: Unit, column: string, value: Id, t: Id)
    requires t != "" && column in {"id", "propertyId"}
    ensures Matches(UnitRow(u), Scoped("Unit", map[column := Str(value), "deletedAt" := Null], t))
        <==> (if column == "id" then u.id else u.propertyId) == value && u.deletedAt.None? && u.tenantId == t
  {
    var w := map[column := Str(value), "deletedAt" := Null];
    ScopedFilterSelects("Unit", "findFirst", Filter(w), t, UnitRow(u));
    assert w - {TenantKey} == w;
    assert column in w && "deletedAt" in w;
  }

  /** The same for renters, filtered by `id` (the lookup) or by `phone` (the
      conflict probe, which therefore sees only live renters of `t`). */
  lemma RenterLookupScoped(r: Renter, column: string, value: string, t: Id)
    requires t != "" && column in {"id", "phone"}
    ensures Matches(RenterRow(r), Scoped("Renter", map[column := Str(value), "deletedAt" := Null], t))
        <==> (if column == "id" then r.id else r.phone) == value && r.deletedAt.None? && r.tenantId == t
  {
    var w := map[column := Str(value), "deletedAt" := Null];
    ScopedFilterSelects("Renter", "findFirst", Filter(w), t, RenterRow(r));
    assert w - {TenantKey} == w;
    assert column in w && "deletedAt" in w;
  }

  /** `findFirst({ where: { id, isActive: true } })` on agreements. */
  lemma ActiveAgreementLookupScoped(a: RentalAgreement, id: Id, t: Id)
    requires t != ""
    ensures Matches(AgreementRow(a), Scoped("RentalAgreement", map["id" := Str(id), "isActive" := Bool(true)], t))
        <==> a.id == id && a.isActive && a.tenantId == t
  {
    var w := map["id" := Str(id), "isActive" := Bool(true)];
    ScopedFilterSelects("RentalAgreement", "findFirst", Filter(w), t, AgreementRow(a));
    assert w - {TenantKey} == w;
    assert "id" in w && "isActive" in w;
  }
}
