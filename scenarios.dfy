/** End-to-end runs of the services over one fresh database, following the
    walkthroughs the system is specified by. */
module Scenarios {
  import opened Common
  import opened Store
  import opened Patterns
  import opened RenterDto
  import Auth = AuthService
  import Props = PropertiesService
  import Units = UnitsService
  import Renters = RentersService
  import Leases = RentalAgreementsService
  import Invoices = RentInvoicesService

  /** Register "Acme", then create the property "Sunset Apts" and its unit "A1". */
  method SetUpUnit() returns (store: Store)
    ensures fresh(store) && store.Valid()
    ensures store.units == map["a1" := Unit("a1", "acme", "sunset", "A1", 15000, VACANT, None)]
    ensures store.renters == map[] && store.agreements == map[] && store.invoices == map[]
  {
    store := new Store();
    var auth := new Auth.AuthService(store);
    var registered := auth.Register(Auth.RegisterDto("Acme", "owner@acme.example", "correct horse"), "bcrypt-hash",
                                    (claims: Auth.TokenPayload, ttl: int) => "signed", "acme", "owner");
    assert store.properties == map[] && store.units == map[] && store.renters == map[] && store.agreements == map[];
    var properties := new Props.PropertiesService(store);
    var property := properties.Create("acme", Props.PropertyDto("Sunset Apts", "Westlands, Nairobi", "Residential"), "sunset", 1);
    assert Props.Live(store.properties, "sunset", "acme");
    assert store.units == map[] && store.renters == map[] && store.agreements == map[];
    var units := new Units.UnitsService(store);
    var unit := units.Create("acme", Units.UnitDto("sunset", "A1", 15000), "a1");
  }

  /** The unit set up above, and the renter Jane. */
  method SetUp() returns (store: Store)
    ensures fresh(store) && store.Valid()
    ensures Units.Live(store.units, "a1", "acme") && store.units["a1"].status == VACANT
    ensures Renters.Live(store.renters, "jane", "acme") && store.renters["jane"].phone == "+254712345678"
    ensures store.agreements == map[] && store.invoices == map[] && "jane-again" !in store.renters
  {
    store := SetUpUnit();
    var renters := new Renters.RentersService(store);
    var jane := CreateRenterDto("Jane", "Doe", "+254712345678", "12345678", Undefined);
    SampleDtoValid(jane);
    var renter := renters.Create("acme", jane, "jane", 2);
  }

  /** Letting A1 makes it OCCUPIED; a second agreement on it is refused with
      `UNIT_NOT_VACANT`, and a second renter with Jane's phone with
      `RENTER_PHONE_ALREADY_EXISTS`. */
  method LettingWalkthrough() returns (first: Result<RentalAgreement>, status: UnitStatus,
                                       second: Result<RentalAgreement>, twin: Result<Renter>)
    ensures first.Ok? && first.value.isActive
    ensures status == OCCUPIED
    ensures second == Err(Leases.UnitNotVacant)
    ensures twin == Err(Renters.PhoneAlreadyExists)
  {
    var store := SetUp();
    var agreements := new Leases.RentalAgreementsService(store);
    first := agreements.Create("acme", Leases.CreateRentalAgreementDto("a1", "jane", 3, 15000, 30000), "lease-1");
    status := store.units["a1"].status;
    second := agreements.Create("acme", Leases.CreateRentalAgreementDto("a1", "jane", 4, 15000, 30000), "lease-2");
    var renters := new Renters.RentersService(store);
    var jane := CreateRenterDto("Jane", "Doe", "+254712345678", "12345678", Undefined);
    SampleDtoValid(jane);
    assert Renters.PhoneTaken(store.renters, jane.phone, "acme");
    twin := renters.Create("acme", jane, "jane-again", 5);
  }

  /** After a property is removed, looking it up, updating it and removing it
      again all answer `PROPERTY_NOT_FOUND`, and the row is still stored. */
  method RemovedPropertyIsGone() returns (found: Result<Property>, updated: Result<Property>,
                                          removedAgain: Result<Property>, kept: bool)
    ensures found == Err(Props.PropertyNotFound)
    ensures updated == Err(Props.PropertyNotFound)
    ensures removedAgain == Err(Props.PropertyNotFound)
    ensures kept
  {
    var store := new Store();
    var properties := new Props.PropertiesService(store);
    var dto := Props.PropertyDto("Sunset Apts", "Westlands, Nairobi", "Residential");
    var created := properties.Create("acme", dto, "sunset", 1);
    var removed := properties.Remove("acme", "sunset", 2);
    found := properties.FindOne("acme", "sunset");
    updated := properties.Update("acme", "sunset", dto);
    removedAgain := properties.Remove("acme", "sunset", 3);
    kept := "sunset" in store.properties;
  }

  /** The set-up above with A1 let to Jane as "lease-1". */
  method SetUpLease() returns (store: Store)
    ensures fresh(store) && store.Valid()
    ensures Invoices.ActiveAgreement(store.agreements, "lease-1", "acme") && store.invoices == map[]
  {
    store := SetUp();
    var agreements := new Leases.RentalAgreementsService(store);
    var lease := agreements.Create("acme", Leases.CreateRentalAgreementDto("a1", "jane", 3, 15000, 30000), "lease-1");
  }

  /** Nothing stops two invoices for the same agreement: both are created. */
  method TwoInvoicesForOneLease() returns (a: Result<RentInvoice>, b: Result<RentInvoice>)
    ensures a.Ok? && b.Ok? && a.value.id != b.value.id
    ensures a.value.rentalAgreementId == b.value.rentalAgreementId
  {
    var store := SetUpLease();
    var invoices := new Invoices.RentInvoicesService(store);
    a := invoices.Create("acme", Invoices.CreateRentInvoiceDto("lease-1", 15000, 10), "inv-1");
    assert Invoices.ActiveAgreement(store.agreements, "lease-1", "acme") && "inv-2" !in store.invoices;
    b := invoices.Create("acme", Invoices.CreateRentInvoiceDto("lease-1", 15000, 10), "inv-2");
  }
}
