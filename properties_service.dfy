/** `PropertiesService`: tenant-scoped create, listing, lookup, update and
    soft delete of properties. */
module PropertiesService {
  import opened Common
  import opened TenantScope
  import opened Store
  import opened Query

  const PropertyNotFound: Error := NotFound("PROPERTY_NOT_FOUND")

  /** `CreatePropertyDto`; `UpdatePropertyDto` extends it without change.
      `type` is a reserved word here, hence `kind`. */
  datatype PropertyDto = PropertyDto(name: string, address: string, kind: string)

  /** `@IsNotEmpty` on every field and `@MaxLength(100)` on the name. */
  predicate ValidDto(dto: PropertyDto) {
    dto.name != "" && |dto.name| <= 100 && dto.address != "" && dto.kind != ""
  }

  /** The property `id` exists, belongs to tenant `t` and is not soft-deleted. */
  predicate Live(m: map<Id, Property>, id: Id, t: Id) {
    id in m && m[id].tenantId == t && m[id].deletedAt.None?
  }

  function NewestFirst(): (Property, Property) -> bool {
    (a: Property, b: Property) => a.createdAt >= b.createdAt
  }

  class PropertiesService {
    const prisma: Store

    constructor(prisma: Store)
      ensures this.prisma == prisma
    {
      this.prisma := prisma;
    }

    /** `create`: the DTO fields, stamped with the ambient tenant. */
    method Create(t: Id, dto: PropertyDto, newId: Id, now: Timestamp) returns (r: Property)
      requires t != "" && ValidDto(dto)
      requires prisma.Valid() && newId !in prisma.properties
      modifies prisma
      ensures r == Property(newId, t, dto.name, dto.address, dto.kind, now, None)
      ensures prisma.State() == old(prisma.State()).(properties := old(prisma.properties)[newId := r])
      ensures prisma.Valid()
      ensures Confined(old(prisma.State()), prisma.State(), t)
    {
      r := Property(newId, t, dto.name, dto.address, dto.kind, now, None);
      PutProperty(prisma.State(), r);
      prisma.properties := prisma.properties[newId := r];
    }

    /** `findAll`: the tenant's live properties, newest first. */
    method FindAll(t: Id) returns (r: seq<Property>)
      requires t != "" && prisma.Valid()
      ensures forall p :: p in r <==> p in prisma.properties.Values && p.tenantId == t && p.deletedAt.None?
      ensures forall i, j :: 0 <= i < j < |r| ==> r[i].id != r[j].id && r[i].createdAt >= r[j].createdAt
    {
      var ids := SelectSorted(prisma.properties, (p: Property) => p.tenantId == t && p.deletedAt.None?, NewestFirst());
      r := Rows(prisma.properties, ids);
      assert forall i :: 0 <= i < |r| ==> r[i].id == ids[i];
      forall p | p in prisma.properties.Values && p.tenantId == t && p.deletedAt.None?
        ensures p in r
      {
        assert p.id in prisma.properties && prisma.properties[p.id] == p;
        var i :| 0 <= i < |ids| && ids[i] == p.id;
        assert r[i] == p;
      }
    }

    /** `findOne`: the live property `id` of tenant `t`, or `PROPERTY_NOT_FOUND`. */
    function FindOne(t: Id, id: Id): (r: Result<Property>)
      reads prisma
      ensures r.Ok? <==> Live(prisma.properties, id, t)
      ensures r.Ok? ==> r.value == prisma.properties[id]
      ensures r.Err? ==> r.error == PropertyNotFound
    {
      if Live(prisma.properties, id, t) then Ok(prisma.properties[id]) else Err(PropertyNotFound)
    }

    /** `update`: existence check first, then the DTO fields overwrite the row. */
    method Update(t: Id, id: Id, dto: PropertyDto) returns (r: Result<Property>)
      requires t != "" && ValidDto(dto) && prisma.Valid()
      modifies prisma
      ensures !Live(old(prisma.properties), id, t) ==>
        r == Err(PropertyNotFound) && prisma.State() == old(prisma.State())
      ensures Live(old(prisma.properties), id, t) ==>
        var p := old(prisma.properties[id]).(name := dto.name, address := dto.address, kind := dto.kind);
        r == Ok(p) && prisma.State() == old(prisma.State()).(properties := old(prisma.properties)[id := p])
      ensures prisma.Valid()
      ensures Confined(old(prisma.State()), prisma.State(), t)
    {
      var found := FindOne(t, id);
      if found.Err? {
        return Err(found.error);
      }
      var p := found.value.(name := dto.name, address := dto.address, kind := dto.kind);
      PutProperty(prisma.State(), p);
      prisma.properties := prisma.properties[id := p];
      r := Ok(p);
    }

    /** `remove`: a soft delete; the row stays, with `deletedAt` set. */
    method Remove(t: Id, id: Id, now: Timestamp) returns (r: Result<Property>)
      requires t != "" && prisma.Valid()
      modifies prisma
      ensures !Live(old(prisma.properties), id, t) ==>
        r == Err(PropertyNotFound) && prisma.State() == old(prisma.State())
      ensures Live(old(prisma.properties), id, t) ==>
        var p := old(prisma.properties[id]).(deletedAt := Some(now));
        r == Ok(p) && prisma.State() == old(prisma.State()).(properties := old(prisma.properties)[id := p])
      ensures id in old(prisma.properties) ==> id in prisma.properties
      ensures !Live(prisma.properties, id, t)
      ensures prisma.Valid()
      ensures Confined(old(prisma.State()), prisma.State(), t)
    {
      var found := FindOne(t, id);
      if found.Err? {
        return Err(found.error);
      }
      var p := found.value.(deletedAt := Some(now));
      PutProperty(prisma.State(), p);
      prisma.properties := prisma.properties[id := p];
      r := Ok(p);
    }
  }

  /** The lookup the service performs directly is the one the scoping layer
      produces from `{ id, deletedAt: null }`: some stored row matches the
      scoped filter exactly when the property is live and owned by `t`. */
  lemma FindOneIsScopedLookup(m: map<Id, Property>, id: Id, t: Id)
    requires t != ""
    requires forall k :: k in m ==> m[k].id == k
    ensures Live(m, id, t) <==>
      exists k :: k in m && Matches(PropertyRow(m[k]), Scoped("Property", map["id" := Str(id), "deletedAt" := Null], t))
  {
    if Live(m, id, t) {
      PropertyLookupScoped(m[id], id, t);
    }
    forall k | k in m && Matches(PropertyRow(m[k]), Scoped("Property", map["id" := Str(id), "deletedAt" := Null], t))
      ensures Live(m, id, t)
    {
      PropertyLookupScoped(m[k], id, t);
    }
  }
}
