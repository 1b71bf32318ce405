/** `RentInvoicesService`: invoices are raised against an active agreement of
    the tenant, listed by due date, and patched in `isPaid`/`lateFeeApplied`. */
module RentInvoicesService {
  import opened Common
  import opened TenantScope
  import opened Store
  import opened Query

  const ActiveAgreementNotFound: Error := NotFound("ACTIVE_RENTAL_AGREEMENT_NOT_FOUND")
  const InvoiceNotFound: Error := NotFound("INVOICE_NOT_FOUND")

  /** `CreateRentInvoiceDto`, with `dueDate` already parsed. */
  datatype CreateRentInvoiceDto = CreateRentInvoiceDto(rentalAgreementId: Id, amount: int, dueDate: Timestamp)

  /** `UpdateRentInvoiceDto`: both fields optional. */
  datatype UpdateRentInvoiceDto = UpdateRentInvoiceDto(isPaid: Field<bool>, lateFeeApplied: Field<int>)

  predicate ValidCreate(dto: CreateRentInvoiceDto) {
    dto.rentalAgreementId != "" && dto.amount >= 0
  }

  /** `@Min(0)` on a given late fee; `@IsOptional()` lets `null` through. */
  predicate ValidUpdate(dto: UpdateRentInvoiceDto) {
    dto.lateFeeApplied.Given? ==> dto.lateFeeApplied.value >= 0
  }

  /** The body writes `NULL` to one of the two required columns. */
  predicate WritesNull(dto: UpdateRentInvoiceDto) {
    dto.isPaid.ExplicitNull? || dto.lateFeeApplied.ExplicitNull?
  }

  /** The tenant has an active agreement `id`. */
  predicate ActiveAgreement(m: map<Id, RentalAgreement>, id: Id, t: Id) {
    id in m && m[id].tenantId == t && m[id].isActive
  }

  /** The invoice `id` exists and belongs to tenant `t`. */
  predicate Owned(m: map<Id, RentInvoice>, id: Id, t: Id) {
    id in m && m[id].tenantId == t
  }

  /** `update({ data: dto })`: a field left `undefined` keeps its stored
      value, a given one is written, and a `null` one is refused by the
      database because neither column is nullable. */
  function Patch(inv: RentInvoice, dto: UpdateRentInvoiceDto): (r: Result<RentInvoice>)
    ensures r.Err? <==> WritesNull(dto)
    ensures r.Err? ==> r.error == UncaughtDatabaseError
    ensures r.Ok? ==>
      && r.value.id == inv.id && r.value.tenantId == inv.tenantId
      && r.value.rentalAgreementId == inv.rentalAgreementId
      && r.value.amount == inv.amount && r.value.dueDate == inv.dueDate
    ensures r.Ok? ==> r.value.isPaid == if dto.isPaid.Given? then dto.isPaid.value else inv.isPaid
    ensures r.Ok? ==>
      r.value.lateFeeApplied == if dto.lateFeeApplied.Given? then dto.lateFeeApplied.value else inv.lateFeeApplied
  {
    if WritesNull(dto) then Err(UncaughtDatabaseError)
    else
      Ok(inv.(isPaid := if dto.isPaid.Given? then dto.isPaid.value else inv.isPaid,
              lateFeeApplied := if dto.lateFeeApplied.Given? then dto.lateFeeApplied.value else inv.lateFeeApplied))
  }

  /** An empty patch changes nothing, and a patch that succeeds once succeeds
      again with the same row: patching is idempotent. */
  lemma PatchLaws(inv: RentInvoice, dto: UpdateRentInvoiceDto)
    ensures Patch(inv, UpdateRentInvoiceDto(Undefined, Undefined)) == Ok(inv)
    ensures Patch(inv, dto).Ok? ==> Patch(Patch(inv, dto).value, dto) == Patch(inv, dto)
  {
  }

  function LatestDueFirst(): (RentInvoice, RentInvoice) -> bool {
    (a: RentInvoice, b: RentInvoice) => a.dueDate >= b.dueDate
  }

  class RentInvoicesService {
    const prisma: Store

    constructor(prisma: Store)
      ensures this.prisma == prisma
    {
      this.prisma := prisma;
    }

    /** `create`: needs an active agreement of the tenant; there is no check
        for an existing invoice of the same agreement or period. */
    method Create(t: Id, dto: CreateRentInvoiceDto, newId: Id) returns (r: Result<RentInvoice>)
      requires t != "" && ValidCreate(dto)
      requires prisma.Valid() && newId !in prisma.invoices
      modifies prisma
      ensures !ActiveAgreement(old(prisma.agreements), dto.rentalAgreementId, t) ==>
        r == Err(ActiveAgreementNotFound) && prisma.State() == old(prisma.State())
      ensures ActiveAgreement(old(prisma.agreements), dto.rentalAgreementId, t) ==>
        var inv := RentInvoice(newId, t, dto.rentalAgreementId, dto.amount, dto.dueDate, false, 0);
        r == Ok(inv) && prisma.State() == old(prisma.State()).(invoices := old(prisma.invoices)[newId := inv])
      ensures prisma.Valid()
      ensures Confined(old(prisma.State()), prisma.State(), t)
    {
      if !ActiveAgreement(prisma.agreements, dto.rentalAgreementId, t) {
        return Err(ActiveAgreementNotFound);
      }
      var inv := RentInvoice(newId, t, dto.rentalAgreementId, dto.amount, dto.dueDate, false, 0);
      PutInvoice(prisma.State(), inv);
      prisma.invoices := prisma.invoices[newId := inv];
      r := Ok(inv);
    }

    /** `findAll`: all the tenant's invoices, latest due date first. */
    method FindAll(t: Id) returns (r: seq<RentInvoice>)
      requires t != "" && prisma.Valid()
      ensures forall x :: x in r <==> x in prisma.invoices.Values && x.tenantId == t
      ensures forall i, j :: 0 <= i < j < |r| ==> r[i].id != r[j].id && r[i].dueDate >= r[j].dueDate
    {
      var ids := SelectSorted(prisma.invoices, (x: RentInvoice) => x.tenantId == t, LatestDueFirst());
      r := Rows(prisma.invoices, ids);
      assert forall i :: 0 <= i < |r| ==> r[i].id == ids[i];
      forall x | x in prisma.invoices.Values && x.tenantId == t
        ensures x in r
      {
        assert x.id in prisma.invoices && prisma.invoices[x.id] == x;
        var i :| 0 <= i < |ids| && ids[i] == x.id;
        assert r[i] == x;
      }
    }

    /** `findOne`: the tenant's invoice `id`, or `INVOICE_NOT_FOUND`. */
    function FindOne(t: Id, id: Id): (r: Result<RentInvoice>)
      reads prisma
      ensures r.Ok? <==> Owned(prisma.invoices, id, t)
      ensures r.Ok? ==> r.value == prisma.invoices[id]
      ensures r.Err? ==> r.error == InvoiceNotFound
    {
      if Owned(prisma.invoices, id, t) then Ok(prisma.invoices[id])
      else Err(InvoiceNotFound)
    }

    /** `update`: existence check first, then only the supplied fields change;
        a `null` field fails the write and nothing changes. */
    method Update(t: Id, id: Id, dto: UpdateRentInvoiceDto) returns (r: Result<RentInvoice>)
      requires t != "" && ValidUpdate(dto) && prisma.Valid()
      modifies prisma
      ensures old(FindOne(t, id)).Err? ==> r == Err(InvoiceNotFound) && prisma.State() == old(prisma.State())
      ensures old(FindOne(t, id)).Ok? && WritesNull(dto) ==>
        r == Err(UncaughtDatabaseError) && prisma.State() == old(prisma.State())
      ensures old(FindOne(t, id)).Ok? && !WritesNull(dto) ==>
        var inv := Patch(old(prisma.invoices[id]), dto).value;
        r == Ok(inv) && prisma.State() == old(prisma.State()).(invoices := old(prisma.invoices)[id := inv])
      ensures prisma.Valid()
      ensures Confined(old(prisma.State()), prisma.State(), t)
    {
      var found := FindOne(t, id);
      if found.Err? {
        return Err(found.error);
      }
      var patched := Patch(found.value, dto);
      if patched.Err? {
        return Err(patched.error);
      }
      var inv := patched.value;
      PutInvoice(prisma.State(), inv);
      prisma.invoices := prisma.invoices[id := inv];
      r := Ok(inv);
    }
  }

  /** The agreement probe is the scoped `findFirst({ where: { id, isActive: true } })`. */
  lemma AgreementProbeIsScopedLookup(m: map<Id, RentalAgreement>, id: Id, t: Id)
    requires t != ""
    requires forall k :: k in m ==> m[k].id == k
    ensures ActiveAgreement(m, id, t) <==>
      exists k :: k in m && Matches(AgreementRow(m[k]), Scoped("RentalAgreement", map["id" := Str(id), "isActive" := Bool(true)], t))
  {
    if ActiveAgreement(m, id, t) {
      ActiveAgreementLookupScoped(m[id], id, t);
    }
    forall k | k in m && Matches(AgreementRow(m[k]), Scoped("RentalAgreement", map["id" := Str(id), "isActive" := Bool(true)], t))
      ensures ActiveAgreement(m, id, t)
    {
      ActiveAgreementLookupScoped(m[k], id, t);
    }
  }
}
