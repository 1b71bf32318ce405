/** `UnitsService`: units are created under a live property of the tenant,
    listed per property by name, and updated in their DTO fields only. */
module UnitsService {
  import opened Common
  import opened TenantScope
  import opened Store
  import opened Query
  import PropertiesService

  const UnitNotFound: Error := NotFound("UNIT_NOT_FOUND")

  /** `CreateUnitDto`; `UpdateUnitDto` extends it without change. */
  datatype UnitDto = UnitDto(propertyId: Id, name: string, rentAmount: int)

  /** `@IsNotEmpty` on the ids and the name, `@IsInt @Min(0)` on the rent. */
  predicate ValidDto(dto: UnitDto) {
    dto.propertyId != "" && dto.name != "" && dto.rentAmount >= 0
  }

  /** The unit `id` exists, belongs to tenant `t` and is not soft-deleted. */
  predicate Live(m: map<Id, Unit>, id: Id, t: Id) {
    id in m && m[id].tenantId == t && m[id].deletedAt.None?
  }

  function ByName(): (Unit, Unit) -> bool {
    (a: Unit, b: Unit) => StrLe(a.name, b.name)
  }

  /** Ascending name order is an ordering the query engine accepts. */
  lemma ByNameIsTotalPreorder()
    ensures TotalPreorder(ByName())
  {
    forall a: Unit, b: Unit ensures ByName()(a, b) || ByName()(b, a) {
      StrLeTotal(a.name, b.name);
    }
    forall a: Unit, b: Unit, c: Unit | ByName()(a, b) && ByName()(b, c)
      ensures ByName()(a, c)
    {
      StrLeTransitive(a.name, b.name, c.name);
    }
  }

  /** Every unit hangs off a property of its own tenant. */
  ghost predicate UnitsOwned(db: Tables) {
    forall id :: id in db.units ==>
      var u := db.units[id];
      u.propertyId in db.properties && db.properties[u.propertyId].tenantId == u.tenantId
  }

  /** The row `update` writes: the DTO fields over the stored unit. */
  function Reassign(u: Unit, dto: UnitDto): Unit {
    u.(propertyId := dto.propertyId, name := dto.name, rentAmount := dto.rentAmount)
  }

  /** `update` as written accepts any `propertyId`: a tenant can hang its unit
      off another tenant's property. */
  lemma UpdateCanCrossTenants()
    ensures exists db: Tables, id: Id, dto: UnitDto ::
      && UnitsOwned(db) && Live(db.units, id, "a") && ValidDto(dto) && dto.propertyId in db.properties
      && !UnitsOwned(db.(units := db.units[id := Reassign(db.units[id], dto)]))
  {
    var mine := Property("pa", "a", "Sunset Apts", "Westlands, Nairobi", "Residential", 0, None);
    var theirs := Property("pb", "b", "Hill View", "Kilimani, Nairobi", "Residential", 0, None);
    var unit := Unit("u", "a", "pa", "A1", 15000, VACANT, None);
    var db := Tables(map[], map[], map["pa" := mine, "pb" := theirs], map["u" := unit], map[], map[], map[], map[]);
    var dto := UnitDto("pb", "A1", 15000);
    assert UnitsOwned(db);
    var db' := db.(units := db.units["u" := Reassign(db.units["u"], dto)]);
    assert db'.units["u"].propertyId == "pb" && db'.properties["pb"].tenantId == "b";
    assert !UnitsOwned(db');
    assert UnitsOwned(db) && Live(db.units, "u", "a") && ValidDto(dto) && dto.propertyId in db.properties
      && !UnitsOwned(db.(units := db.units["u" := Reassign(db.units["u"], dto)]));
  }

  /** The corrected update keeps every unit under a property of its tenant. */
  lemma CheckedReassignKeepsOwnership(db: Tables, id: Id, dto: UnitDto, t: Id)
    requires UnitsOwned(db) && Live(db.units, id, t)
    requires PropertiesService.Live(db.properties, dto.propertyId, t)
    ensures UnitsOwned(db.(units := db.units[id := Reassign(db.units[id], dto)]))
  {
  }

  class UnitsService {
    const prisma: Store

    constructor(prisma: Store)
      ensures this.prisma == prisma
    {
      this.prisma := prisma;
    }

    /** `create`: the property must be live and the tenant's; the new unit
        starts VACANT. */
    method Create(t: Id, dto: UnitDto, newId: Id) returns (r: Result<Unit>)
      requires t != "" && ValidDto(dto)
      requires prisma.Valid() && newId !in prisma.units
      modifies prisma
      ensures !PropertiesService.Live(old(prisma.properties), dto.propertyId, t) ==>
        r == Err(PropertiesService.PropertyNotFound) && prisma.State() == old(prisma.State())
      ensures PropertiesService.Live(old(prisma.properties), dto.propertyId, t) ==>
        var u := Unit(newId, t, dto.propertyId, dto.name, dto.rentAmount, VACANT, None);
        r == Ok(u) && prisma.State() == old(prisma.State()).(units := old(prisma.units)[newId := u])
      ensures UnitsOwned(old(prisma.State())) ==> UnitsOwned(prisma.State())
      ensures prisma.Valid()
      ensures Confined(old(prisma.State()), prisma.State(), t)
    {
      if !PropertiesService.Live(prisma.properties, dto.propertyId, t) {
        return Err(PropertiesService.PropertyNotFound);
      }
      var u := Unit(newId, t, dto.propertyId, dto.name, dto.rentAmount, VACANT, None);
      PutUnit(prisma.State(), u);
      prisma.units := prisma.units[newId := u];
      r := Ok(u);
    }

    /** `findAllByProperty`: the tenant's live units of that property, by name. */
    method FindAllByProperty(t: Id, propertyId: Id) returns (r: seq<Unit>)
      requires t != "" && prisma.Valid()
      ensures forall u :: u in r <==>
        u in prisma.units.Values && u.tenantId == t && u.propertyId == propertyId && u.deletedAt.None?
      ensures forall i, j :: 0 <= i < j < |r| ==> r[i].id != r[j].id && StrLe(r[i].name, r[j].name)
    {
      ByNameIsTotalPreorder();
      var ids := SelectSorted(prisma.units,
        (u: Unit) => u.tenantId == t && u.propertyId == propertyId && u.deletedAt.None?, ByName());
      r := Rows(prisma.units, ids);
      assert forall i :: 0 <= i < |r| ==> r[i].id == ids[i];
      forall u | u in prisma.units.Values && u.tenantId == t && u.propertyId == propertyId && u.deletedAt.None?
        ensures u in r
      {
        assert u.id in prisma.units && prisma.units[u.id] == u;
        var i :| 0 <= i < |ids| && ids[i] == u.id;
        assert r[i] == u;
      }
    }

    /** `update`: existence check, then the DTO fields overwrite the row; the
        status is not a DTO field and never changes here. The only check on the
        new `propertyId` is the database's foreign key to the property table:
        an id naming no stored property (live or soft-deleted) makes the
        update fail with an error nobody catches. */
    method Update(t: Id, id: Id, dto: UnitDto) returns (r: Result<Unit>)
      requires t != "" && ValidDto(dto) && prisma.Valid()
      modifies prisma
      ensures !Live(old(prisma.units), id, t) ==>
        r == Err(UnitNotFound) && prisma.State() == old(prisma.State())
      ensures Live(old(prisma.units), id, t) && dto.propertyId !in old(prisma.properties) ==>
        r == Err(UncaughtDatabaseError) && prisma.State() == old(prisma.State())
      ensures Live(old(prisma.units), id, t) && dto.propertyId in old(prisma.properties) ==>
        var u := Reassign(old(prisma.units[id]), dto);
        r == Ok(u) && prisma.State() == old(prisma.State()).(units := old(prisma.units)[id := u])
      ensures r.Ok? ==> r.value.propertyId in prisma.properties
      ensures forall k :: k in old(prisma.units) ==> k in prisma.units && prisma.units[k].status == old(prisma.units[k].status)
      ensures prisma.Valid()
      ensures Confined(old(prisma.State()), prisma.State(), t)
    {
      if !Live(prisma.units, id, t) {
        return Err(UnitNotFound);
      }
      if dto.propertyId !in prisma.properties {
        return Err(UncaughtDatabaseError);
      }
      var u := Reassign(prisma.units[id], dto);
      PutUnit(prisma.State(), u);
      prisma.units := prisma.units[id := u];
      r := Ok(u);
    }

    /** `update` with the property check `create` makes: the new `propertyId`
        must name a live property of the tenant (`PROPERTY_NOT_FOUND`). */
    method UpdateChecked(t: Id, id: Id, dto: UnitDto) returns (r: Result<Unit>)
      requires t != "" && ValidDto(dto) && prisma.Valid()
      modifies prisma
      ensures !Live(old(prisma.units), id, t) ==>
        r == Err(UnitNotFound) && prisma.State() == old(prisma.State())
      ensures Live(old(prisma.units), id, t) && !PropertiesService.Live(old(prisma.properties), dto.propertyId, t) ==>
        r == Err(PropertiesService.PropertyNotFound) && prisma.State() == old(prisma.State())
      ensures Live(old(prisma.units), id, t) && PropertiesService.Live(old(prisma.properties), dto.propertyId, t) ==>
        var u := Reassign(old(prisma.units[id]), dto);
        r == Ok(u) && prisma.State() == old(prisma.State()).(units := old(prisma.units)[id := u])
      ensures UnitsOwned(old(prisma.State())) ==> UnitsOwned(prisma.State())
      ensures prisma.Valid()
      ensures Confined(old(prisma.State()), prisma.State(), t)
    {
      if !Live(prisma.units, id, t) {
        return Err(UnitNotFound);
      }
      if !PropertiesService.Live(prisma.properties, dto.propertyId, t) {
        return Err(PropertiesService.PropertyNotFound);
      }
      var u := Reassign(prisma.units[id], dto);
      PutUnit(prisma.State(), u);
      prisma.units := prisma.units[id := u];
      r := Ok(u);
    }
  }
}
