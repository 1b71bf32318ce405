/** `RentalAgreementsService`: the unit-occupancy state machine. Creating an
    agreement moves a VACANT unit to OCCUPIED, terminating it moves the unit
    back to VACANT, each in one transaction. */
module RentalAgreementsService {
  import opened Common
  import opened Store
  import opened Query
  import UnitsService
  import RentersService

  const UnitNotVacant: Error := Conflict("UNIT_NOT_VACANT")
  const AgreementNotFound: Error := NotFound("RENTAL_AGREEMENT_NOT_FOUND")
  const AlreadyTerminated: Error := Conflict("AGREEMENT_ALREADY_TERMINATED")

  /** `CreateRentalAgreementDto`, with `startDate` already parsed. */
  datatype CreateRentalAgreementDto = CreateRentalAgreementDto(
    unitId: Id, renterId: Id, startDate: Timestamp, rentAmount: int, deposit: int)

  /** `@IsNotEmpty` on the ids, `@IsInt @Min(0)` on the amounts. */
  predicate ValidDto(dto: CreateRentalAgreementDto) {
    dto.unitId != "" && dto.renterId != "" && dto.rentAmount >= 0 && dto.deposit >= 0
  }

  /** The unit passes both checks of `create`: live, the tenant's, VACANT. */
  predicate Lettable(units: map<Id, Unit>, id: Id, t: Id) {
    UnitsService.Live(units, id, t) && units[id].status == VACANT
  }

  // ----- the two transactions, on the tables -----

  /** The create transaction: insert the agreement, mark its unit OCCUPIED. */
  function Occupy(db: Tables, a: RentalAgreement): Tables
    requires a.unitId in db.units
  {
    db.(agreements := db.agreements[a.id := a],
        units := db.units[a.unitId := db.units[a.unitId].(status := OCCUPIED)])
  }

  /** The terminate transaction: deactivate the agreement, stamp its end, mark
      its unit VACANT. */
  function Vacate(db: Tables, id: Id, now: Timestamp): Tables
    requires id in db.agreements && db.agreements[id].unitId in db.units
  {
    var a := db.agreements[id];
    db.(agreements := db.agreements[id := a.(isActive := false, endDate := Some(now))],
        units := db.units[a.unitId := db.units[a.unitId].(status := VACANT)])
  }

  /** Occupying a VACANT unit of the same tenant with a new active agreement
      keeps every unit with at most one active agreement, and every active
      agreement's unit OCCUPIED. */
  lemma OccupyKeepsConsistent(db: Tables, a: RentalAgreement)
    requires Consistent(db)
    requires a.id !in db.agreements && a.isActive
    requires a.unitId in db.units && db.units[a.unitId].status == VACANT
    requires db.units[a.unitId].tenantId == a.tenantId
    ensures Consistent(Occupy(db, a))
  {
    var db' := Occupy(db, a);
    NotOccupiedMeansFree(db, a.unitId);
    forall i, j |
      i in db'.agreements && j in db'.agreements && db'.agreements[i].isActive
      && db'.agreements[j].isActive && db'.agreements[i].unitId == db'.agreements[j].unitId
      ensures i == j
    {
      if i != a.id && j != a.id {
        assert db.agreements[i] == db'.agreements[i] && db.agreements[j] == db'.agreements[j];
      }
    }
  }

  /** The create transaction writes only rows of the agreement's tenant. */
  lemma OccupyConfined(db: Tables, a: RentalAgreement)
    requires a.id !in db.agreements
    requires a.unitId in db.units && db.units[a.unitId].tenantId == a.tenantId
    ensures Confined(db, Occupy(db, a), a.tenantId)
  {
    var db' := Occupy(db, a);
    assert UnitsUntouched(db.units, db'.units, a.tenantId);
    assert AgreementsUntouched(db.agreements, db'.agreements, a.tenantId);
  }

  /** Vacating the unit of an active agreement keeps the same invariant: the
      agreement was the unit's only active one, and it is inactive now. */
  lemma VacateKeepsConsistent(db: Tables, id: Id, now: Timestamp)
    requires Consistent(db)
    requires id in db.agreements && db.agreements[id].isActive
    ensures db.agreements[id].unitId in db.units
    ensures db.units[db.agreements[id].unitId].tenantId == db.agreements[id].tenantId
    ensures Consistent(Vacate(db, id, now))
  {
    var u := db.agreements[id].unitId;
    var db' := Vacate(db, id, now);
    forall k | k in db'.agreements && db'.agreements[k].isActive
      ensures db'.agreements[k].unitId != u
    {
      assert k != id;
      assert db.agreements[k] == db'.agreements[k];
    }
  }

  /** The terminate transaction writes only rows of the agreement's tenant. */
  lemma VacateConfined(db: Tables, id: Id, now: Timestamp)
    requires id in db.agreements && db.agreements[id].unitId in db.units
    requires db.units[db.agreements[id].unitId].tenantId == db.agreements[id].tenantId
    ensures Confined(db, Vacate(db, id, now), db.agreements[id].tenantId)
  {
    var db' := Vacate(db, id, now);
    assert UnitsUntouched(db.units, db'.units, db.agreements[id].tenantId);
    assert AgreementsUntouched(db.agreements, db'.agreements, db.agreements[id].tenantId);
  }

  /** After termination the unit is VACANT and carries no active agreement, so
      it can be let again. */
  lemma VacateFreesUnit(db: Tables, id: Id, now: Timestamp)
    requires Consistent(db)
    requires id in db.agreements && db.agreements[id].isActive
    ensures var u := db.agreements[id].unitId;
      var db' := Vacate(db, id, now);
      u in db'.units && db'.units[u].status == VACANT
      && forall k :: k in db'.agreements && db'.agreements[k].isActive ==> db'.agreements[k].unitId != u
  {
    VacateKeepsConsistent(db, id, now);
    var u := db.agreements[id].unitId;
    NotOccupiedMeansFree(Vacate(db, id, now), u);
  }

  function LatestStartFirst(): (RentalAgreement, RentalAgreement) -> bool {
    (a: RentalAgreement, b: RentalAgreement) => a.startDate >= b.startDate
  }

  class RentalAgreementsService {
    const prisma: Store

    constructor(prisma: Store)
      ensures this.prisma == prisma
    {
      this.prisma := prisma;
    }

    /** `create`: the unit must be the tenant's and live (`UNIT_NOT_FOUND`),
        then VACANT (`UNIT_NOT_VACANT`), then the renter must be the tenant's
        and live (`RENTER_NOT_FOUND`); only then the transaction runs. */
    method Create(t: Id, dto: CreateRentalAgreementDto, newId: Id) returns (r: Result<RentalAgreement>)
      requires t != "" && ValidDto(dto)
      requires prisma.Valid() && newId !in prisma.agreements
      modifies prisma
      ensures !UnitsService.Live(old(prisma.units), dto.unitId, t) ==>
        r == Err(UnitsService.UnitNotFound) && prisma.State() == old(prisma.State())
      ensures UnitsService.Live(old(prisma.units), dto.unitId, t) && old(prisma.units[dto.unitId].status) != VACANT ==>
        r == Err(UnitNotVacant) && prisma.State() == old(prisma.State())
      ensures Lettable(old(prisma.units), dto.unitId, t) && !RentersService.Live(old(prisma.renters), dto.renterId, t) ==>
        r == Err(RentersService.RenterNotFound) && prisma.State() == old(prisma.State())
      ensures Lettable(old(prisma.units), dto.unitId, t) && RentersService.Live(old(prisma.renters), dto.renterId, t) ==>
        var a := RentalAgreement(newId, t, dto.unitId, dto.renterId, dto.startDate, None,
                                 dto.rentAmount, dto.deposit, true);
        r == Ok(a) && prisma.State() == Occupy(old(prisma.State()), a)
      ensures prisma.Valid()
      ensures Confined(old(prisma.State()), prisma.State(), t)
    {
      if !UnitsService.Live(prisma.units, dto.unitId, t) {
        return Err(UnitsService.UnitNotFound);
      }
      var unit := prisma.units[dto.unitId];
      if unit.status != VACANT {
        return Err(UnitNotVacant);
      }
      if !RentersService.Live(prisma.renters, dto.renterId, t) {
        return Err(RentersService.RenterNotFound);
      }
      var a := RentalAgreement(newId, t, dto.unitId, dto.renterId, dto.startDate, None,
                               dto.rentAmount, dto.deposit, true);
      var db := prisma.State();
      OccupyKeepsConsistent(db, a);
      OccupyConfined(db, a);
      var committed := Occupy(db, a);
      prisma.agreements := committed.agreements;
      prisma.units := committed.units;
      r := Ok(a);
    }

    /** `findAllActive`: the tenant's active agreements, latest start first. */
    method FindAllActive(t: Id) returns (r: seq<RentalAgreement>)
      requires t != "" && prisma.Valid()
      ensures forall a :: a in r <==> a in prisma.agreements.Values && a.tenantId == t && a.isActive
      ensures forall i, j :: 0 <= i < j < |r| ==> r[i].id != r[j].id && r[i].startDate >= r[j].startDate
    {
      var ids := SelectSorted(prisma.agreements, (a: RentalAgreement) => a.tenantId == t && a.isActive, LatestStartFirst());
      r := Rows(prisma.agreements, ids);
      assert forall i :: 0 <= i < |r| ==> r[i].id == ids[i];
      forall a | a in prisma.agreements.Values && a.tenantId == t && a.isActive
        ensures a in r
      {
        assert a.id in prisma.agreements && prisma.agreements[a.id] == a;
        var i :| 0 <= i < |ids| && ids[i] == a.id;
        assert r[i] == a;
      }
    }

    /** `findOne`: the tenant's agreement `id`, active or not. */
    function FindOne(t: Id, id: Id): (r: Result<RentalAgreement>)
      reads prisma
      ensures r.Ok? <==> id in prisma.agreements && prisma.agreements[id].tenantId == t
      ensures r.Ok? ==> r.value == prisma.agreements[id]
      ensures r.Err? ==> r.error == AgreementNotFound
    {
      if id in prisma.agreements && prisma.agreements[id].tenantId == t then Ok(prisma.agreements[id])
      else Err(AgreementNotFound)
    }

    /** `terminate`: `RENTAL_AGREEMENT_NOT_FOUND`, then
        `AGREEMENT_ALREADY_TERMINATED`, then the transaction. */
    method Terminate(t: Id, id: Id, now: Timestamp) returns (r: Result<RentalAgreement>)
      requires t != "" && prisma.Valid()
      modifies prisma
      ensures old(FindOne(t, id)).Err? ==> r == Err(AgreementNotFound) && prisma.State() == old(prisma.State())
      ensures old(FindOne(t, id)).Ok? && !old(prisma.agreements[id].isActive) ==>
        r == Err(AlreadyTerminated) && prisma.State() == old(prisma.State())
      ensures old(FindOne(t, id)).Ok? && old(prisma.agreements[id].isActive) ==>
        && old(prisma.agreements[id].unitId) in old(prisma.units)
        && r == Ok(old(prisma.agreements[id]).(isActive := false, endDate := Some(now)))
        && prisma.State() == Vacate(old(prisma.State()), id, now)
      ensures prisma.Valid()
      ensures Confined(old(prisma.State()), prisma.State(), t)
    {
      var found := FindOne(t, id);
      if found.Err? {
        return Err(found.error);
      }
      var a := found.value;
      if !a.isActive {
        return Err(AlreadyTerminated);
      }
      var db := prisma.State();
      VacateKeepsConsistent(db, id, now);
      VacateConfined(db, id, now);
      var committed := Vacate(db, id, now);
      prisma.agreements := committed.agreements;
      prisma.units := committed.units;
      r := Ok(a.(isActive := false, endDate := Some(now)));
    }
  }
}
