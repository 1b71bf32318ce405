/** `RentersService`: renters are created unless a live renter of the same
    tenant already holds the phone number; listing, lookup and update are
    tenant-scoped and ignore soft-deleted renters. */
module RentersService {
  import opened Common
  import opened Store
  import opened Query
  import opened RenterDto
  import opened TenantScope
  import opened Patterns

  const RenterNotFound: Error := NotFound("RENTER_NOT_FOUND")
  const PhoneAlreadyExists: Error := Conflict("RENTER_PHONE_ALREADY_EXISTS")

  /** The renter `id` exists, belongs to tenant `t` and is not soft-deleted. */
  predicate Live(m: map<Id, Renter>, id: Id, t: Id) {
    id in m && m[id].tenantId == t && m[id].deletedAt.None?
  }

  /** Some live renter of tenant `t` holds `phone`. */
  predicate PhoneTaken(m: map<Id, Renter>, phone: string, t: Id) {
    exists id :: id in m && Live(m, id, t) && m[id].phone == phone
  }

  /** No two live renters of one tenant share a phone number. */
  ghost predicate PhonesUnique(m: map<Id, Renter>) {
    forall i, j ::
      (i in m && j in m && m[i].deletedAt.None? && m[j].deletedAt.None?
       && m[i].tenantId == m[j].tenantId && m[i].phone == m[j].phone) ==> i == j
  }

  function NewestFirst(): (Renter, Renter) -> bool {
    (a: Renter, b: Renter) => a.createdAt >= b.createdAt
  }

  /** The emergency contact a body leaves in the row: `null` clears the
      (nullable) column, `undefined` keeps `stored`. */
  function ContactAfter(f: Field<string>, stored: Option<string>): Option<string> {
    match f
    case Undefined => stored
    case ExplicitNull => None
    case Given(c) => Some(c)
  }

  /** `update({ data: dto })`: every field of the DTO is written; the emergency
      contact is written too when it is `null`, and left alone when it is
      `undefined`. */
  function Overwrite(r: Renter, dto: UpdateRenterDto): (r': Renter)
    ensures r'.id == r.id && r'.tenantId == r.tenantId && r'.status == r.status
    ensures r'.createdAt == r.createdAt && r'.deletedAt == r.deletedAt
    ensures r'.phone == dto.phone && r'.nationalId == dto.nationalId
    ensures r'.firstName == dto.firstName && r'.lastName == dto.lastName
    ensures dto.emergencyContact.Undefined? ==> r'.emergencyContact == r.emergencyContact
    ensures dto.emergencyContact.ExplicitNull? ==> r'.emergencyContact.None?
    ensures dto.emergencyContact.Given? ==> r'.emergencyContact == Some(dto.emergencyContact.value)
  {
    r.(firstName := dto.firstName, lastName := dto.lastName, phone := dto.phone,
       nationalId := dto.nationalId,
       emergencyContact := ContactAfter(dto.emergencyContact, r.emergencyContact))
  }

  /** `update` does not re-check the phone: two live renters of one tenant can
      end up sharing a number. */
  lemma UpdateCanDuplicatePhone()
    ensures exists m: map<Id, Renter>, id: Id, dto: UpdateRenterDto ::
      PhonesUnique(m) && Live(m, id, "t") && Valid(dto) && !PhonesUnique(m[id := Overwrite(m[id], dto)])
  {
    var a := Renter("a", "t", "Ann", "Wanjiru", "+254712345678", "1234567", None, ACTIVE, 0, None);
    var b := Renter("b", "t", "Jane", "Doe", "+254700000002", "12345678", None, ACTIVE, 1, None);
    var m := map["a" := a, "b" := b];
    var dto := CreateRenterDto("Jane", "Doe", "+254712345678", "12345678", Undefined);
    SampleDtoValid(dto);
    assert a.phone != b.phone;
    assert PhonesUnique(m);
    var m' := m["b" := Overwrite(m["b"], dto)];
    assert m'["a"].phone == m'["b"].phone && m'["a"].deletedAt.None? && m'["b"].deletedAt.None?;
    assert !PhonesUnique(m');
    assert PhonesUnique(m) && Live(m, "b", "t") && Valid(dto) && !PhonesUnique(m["b" := Overwrite(m["b"], dto)]);
  }

  class RentersService {
    const prisma: Store

    constructor(prisma: Store)
      ensures this.prisma == prisma
    {
      this.prisma := prisma;
    }

    /** `create`: refused with `RENTER_PHONE_ALREADY_EXISTS` when a live renter of
        the tenant has the phone (a soft-deleted one does not count); otherwise
        the DTO is stored, stamped with the tenant, status ACTIVE. */
    method Create(t: Id, dto: CreateRenterDto, newId: Id, now: Timestamp) returns (r: Result<Renter>)
      requires t != "" && Valid(dto)
      requires prisma.Valid() && newId !in prisma.renters
      modifies prisma
      ensures PhoneTaken(old(prisma.renters), dto.phone, t) ==>
        r == Err(PhoneAlreadyExists) && prisma.State() == old(prisma.State())
      ensures !PhoneTaken(old(prisma.renters), dto.phone, t) ==>
        var n := Renter(newId, t, dto.firstName, dto.lastName, dto.phone, dto.nationalId,
                        ContactAfter(dto.emergencyContact, None), ACTIVE, now, None);
        r == Ok(n) && prisma.State() == old(prisma.State()).(renters := old(prisma.renters)[newId := n])
      ensures PhonesUnique(old(prisma.renters)) ==> PhonesUnique(prisma.renters)
      ensures prisma.Valid()
      ensures Confined(old(prisma.State()), prisma.State(), t)
    {
      if exists id :: id in prisma.renters && Live(prisma.renters, id, t) && prisma.renters[id].phone == dto.phone {
        return Err(PhoneAlreadyExists);
      }
      var n := Renter(newId, t, dto.firstName, dto.lastName, dto.phone, dto.nationalId,
                      ContactAfter(dto.emergencyContact, None), ACTIVE, now, None);
      PutRenter(prisma.State(), n);
      prisma.renters := prisma.renters[newId := n];
      r := Ok(n);
    }

    /** `findAll`: the tenant's live renters, newest first. */
    method FindAll(t: Id) returns (r: seq<Renter>)
      requires t != "" && prisma.Valid()
      ensures forall x :: x in r <==> x in prisma.renters.Values && x.tenantId == t && x.deletedAt.None?
      ensures forall i, j :: 0 <= i < j < |r| ==> r[i].id != r[j].id && r[i].createdAt >= r[j].createdAt
    {
      var ids := SelectSorted(prisma.renters, (x: Renter) => x.tenantId == t && x.deletedAt.None?, NewestFirst());
      r := Rows(prisma.renters, ids);
      assert forall i :: 0 <= i < |r| ==> r[i].id == ids[i];
      forall x | x in prisma.renters.Values && x.tenantId == t && x.deletedAt.None?
        ensures x in r
      {
        assert x.id in prisma.renters && prisma.renters[x.id] == x;
        var i :| 0 <= i < |ids| && ids[i] == x.id;
        assert r[i] == x;
      }
    }

    /** `findOne`: the live renter `id` of tenant `t`, or `RENTER_NOT_FOUND`. */
    function FindOne(t: Id, id: Id): (r: Result<Renter>)
      reads prisma
      ensures r.Ok? <==> Live(prisma.renters, id, t)
      ensures r.Ok? ==> r.value == prisma.renters[id]
      ensures r.Err? ==> r.error == RenterNotFound
    {
      if Live(prisma.renters, id, t) then Ok(prisma.renters[id]) else Err(RenterNotFound)
    }

    /** `update`: existence check first, then the DTO overwrites the row. */
    method Update(t: Id, id: Id, dto: UpdateRenterDto) returns (r: Result<Renter>)
      requires t != "" && Valid(dto) && prisma.Valid()
      modifies prisma
      ensures !Live(old(prisma.renters), id, t) ==>
        r == Err(RenterNotFound) && prisma.State() == old(prisma.State())
      ensures Live(old(prisma.renters), id, t) ==>
        var n := Overwrite(old(prisma.renters[id]), dto);
        r == Ok(n) && prisma.State() == old(prisma.State()).(renters := old(prisma.renters)[id := n])
      ensures prisma.Valid()
      ensures Confined(old(prisma.State()), prisma.State(), t)
    {
      var found := FindOne(t, id);
      if found.Err? {
        return Err(found.error);
      }
      var n := Overwrite(found.value, dto);
      PutRenter(prisma.State(), n);
      prisma.renters := prisma.renters[id := n];
      r := Ok(n);
    }
  }

  /** The phone probe the service runs is the scoped `findFirst({ where: {
      phone, deletedAt: null } })`: some stored row matches it exactly when the
      phone is taken within the tenant. */
  lemma PhoneProbeIsScopedLookup(m: map<Id, Renter>, phone: string, t: Id)
    requires t != ""
    requires forall k :: k in m ==> m[k].id == k
    ensures PhoneTaken(m, phone, t) <==>
      exists k :: k in m && Matches(RenterRow(m[k]), Scoped("Renter", map["phone" := Str(phone), "deletedAt" := Null], t))
  {
    if PhoneTaken(m, phone, t) {
      var id :| id in m && Live(m, id, t) && m[id].phone == phone;
      RenterLookupScoped(m[id], "phone", phone, t);
    }
    forall k | k in m && Matches(RenterRow(m[k]), Scoped("Renter", map["phone" := Str(phone), "deletedAt" := Null], t))
      ensures PhoneTaken(m, phone, t)
    {
      RenterLookupScoped(m[k], "phone", phone, t);
    }
  }
}
