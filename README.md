# Multi-tenant rental API: a Dafny model of its service core

This project models the back end of a property-management API. Landlord companies
(tenants) register, then manage their properties, units, renters, rental agreements,
rent invoices and M-Pesa payments. Every company's data sits in one shared database, and
isolation between companies rests on a few pieces, all modelled here:

- **The Prisma query extension** (`TenantScope`). It adds the ambient `tenantId` to the
  filter of every read, update and delete. It stamps the `tenantId` onto every row that
  `create`, `createMany` and the create branch of `upsert` write.
- **The tenant interceptor** (`TenantInterceptor`). It refuses a request that carries no
  tenant and binds the tenant of the rest.
- **The roles guard** (`RolesGuard`).
- **The services.** They use the scoped client as a class holding the database.
  - `Store.Store` is the database: one `map` per model.
  - The service classes mutate it through `modifies` clauses.
  - `Store.Consistent` is the invariant every service method keeps:
    - rows are keyed by their ids
    - an active agreement occupies its unit
    - a unit has at most one active agreement
    - a payment's invoice is stored and belongs to the same tenant
    - checkout ids and user emails are unique
  - `Store.Confined` states that a request under tenant `t` changed no row of any other
    tenant.

Listing queries (`findMany` with `orderBy`) are modelled by one loop,
`Query.SelectSorted`. It scans a table once, keeps the rows a filter accepts, and returns
them sorted by a total preorder. Ties may come back in any order. String order is
code-point lexicographic (`Query.StrLe`).

Request bodies are checked by class-validator before they reach a service. Each DTO has a
`Valid` predicate, and the service methods require it. The `@Matches` rules are modelled
as patterns over characters (`Patterns`), with lemmas spelling out what they admit.

Inputs the code reads from the environment are parameters:
- the clock (`now`, or the ISO string of the current instant)
- fresh ids
- bcrypt's hash and compare
- JWT signing
- the M-Pesa configuration
- the two HTTP calls to the gateway

The ambient tenant (AsyncLocalStorage) is the parameter `t`. The M-Pesa callback and
`AuthService` use the unscoped client, so they take no `t`.

## Model

| member | source | states |
|---|---|---|
| TenantScope.AmbientTenant | apps/api/prisma/prisma.service.ts:31-34 | a context scopes queries exactly when it is bound and its tenant id is non-empty (a falsy `''` does not) |
| TenantScope.ScopeArgs | apps/api/prisma/prisma.service.ts:24-63 | the rewrite never touches arguments other than `where`, `data`, `create` and `update` |
| TenantScope.WithTenantStamps | apps/api/prisma/prisma.service.ts:43 | `{ ...o, tenantId }` keeps every other key of `o` and sets the tenant key to the ambient tenant |
| TenantScope.TenantModelForwarded | apps/api/prisma/prisma.service.ts:25-29 | queries on the `Tenant` model are forwarded unchanged, whatever context is bound |
| TenantScope.UnboundContextForwards | apps/api/prisma/prisma.service.ts:31-34 | with no context or an empty tenant id, every query is forwarded unchanged |
| TenantScope.WhereOperationScopesFilter | apps/api/prisma/prisma.service.ts:35-44 | each of the ten filter operations gets the caller's filter plus `tenantId`; nothing else changes |
| TenantScope.UpdateDataNotStamped | apps/api/prisma/prisma.service.ts:35-44 | `update`/`updateMany` leave `data` as the caller wrote it |
| TenantScope.CreateOperationStampsData | apps/api/prisma/prisma.service.ts:46-53 | `create`/`createMany` stamp the tenant onto one object, or onto every element of an array, same length, other keys kept |
| TenantScope.UpsertScopesLookupAndCreate | apps/api/prisma/prisma.service.ts:55-59 | `upsert` scopes `where`, stamps `create`, and passes `update` through as a copy |
| TenantScope.UnlistedOperationForwarded | apps/api/prisma/prisma.service.ts:35-62 | an operation in none of the lists (e.g. `findFirstOrThrow`) is forwarded unchanged even under a tenant |
| TenantScope.WithTenantIgnoresTenant | apps/api/prisma/prisma.service.ts:43 | the spread result does not depend on any `tenantId` the object already held |
| TenantScope.CallerTenantOverwritten | apps/api/prisma/prisma.service.ts:42-59 | a caller-supplied `tenantId` in `where`, `data` or `create` has no effect: scoping gives the same arguments as with it removed |
| TenantScope.WithTenantTwice | apps/api/prisma/prisma.service.ts:43 | stamping twice equals stamping once |
| TenantScope.ScopeIdempotent | apps/api/prisma/prisma.service.ts:24-63 | rewriting already-scoped arguments under the same context changes nothing |
| TenantScope.ScopedQueryTouchesOnlyTenantRows | apps/api/prisma/prisma.service.ts:34-59 | under a bound tenant, every row a scoped filter matches, and every row a scoped write inserts, carries that tenant |
| TenantScope.ScopedFilterSelects | apps/api/prisma/prisma.service.ts:42-44 | a scoped filter matches a row iff the caller's filter (without `tenantId`) matches and the row's tenant is the ambient one |
| TenantInterceptor.BindContext | apps/api/src/common/interceptors/tenant.interceptor.ts:9-19 | refuses with `MISSING_TENANT_CONTEXT` iff there is no user or its tenant id is absent or empty; otherwise binds that tenant |
| TenantInterceptor.Intercept | apps/api/src/common/interceptors/tenant.interceptor.ts:8-22 | the handler runs, under the user's tenant, iff the context binds; otherwise the rejection is the answer |
| TenantInterceptor.RejectionIgnoresHandler | apps/api/src/common/interceptors/tenant.interceptor.ts:12-16 | a rejected request gives the same error whatever the handler would do |
| TenantInterceptor.AcceptedRequestsAreScoped | apps/api/src/common/interceptors/tenant.interceptor.ts:19-21 | every query a handler behind the interceptor issues touches only rows of the user's tenant |
| RolesGuard.CanActivate | apps/api/src/common/guards/roles.guard.ts:11-28 | never returns false; handler roles override class roles (the metadata lookup is `RolesGuard.GetAllAndOverride`); absent roles admit everyone; otherwise admitted iff the user's role is listed, else `INSUFFICIENT_PERMISSIONS` |
| RolesGuard.HandlerRolesOverrideClassRoles | apps/api/src/common/guards/roles.guard.ts:12-15 | when the handler declares roles, the class-level list is ignored |
| RolesGuard.EmptyRoleListRefusesEveryone | apps/api/src/common/guards/roles.guard.ts:17-25 | an empty role list is defined metadata and refuses every role |
| Patterns.MatchFixed | apps/api/src/modules/renters/dto/renter.dto.ts:13 | a pattern without repetition matches exactly the strings of its length whose characters fall in the classes position by position |
| Patterns.DigitStringMeaning | apps/api/src/modules/renters/dto/renter.dto.ts:20 | `^\d+$` accepts exactly the non-empty strings of ASCII digits |
| Patterns.KenyanPhoneMeaning | apps/api/src/modules/renters/dto/renter.dto.ts:12-13 | `^\+254[17]\d{8}$` accepts exactly 13-character strings `+254`, then `1` or `7`, then eight digits |
| RenterDto.ValidMeaning | apps/api/src/modules/renters/dto/renter.dto.ts:3-29 | a renter DTO passes iff the names are non-empty, the phone is a Kenyan mobile, the national id is 7-9 digits, and an emergency contact that is given (not left out, not `null`) is a Kenyan mobile; updates use the same rules |
| RenterDto.EmptyEmergencyContactRefused | apps/api/src/modules/renters/dto/renter.dto.ts:23-26 | `@IsOptional` skips only `undefined` and `null`: an empty emergency contact is refused |
| RenterDto.SampleDtoValid | apps/api/src/modules/renters/dto/renter.dto.ts:3-29 | a concrete renter DTO (the one the walkthrough uses) passes validation |
| MpesaDto.UuidMeaning | apps/api/src/modules/mpesa/dto/mpesa.dto.ts:4-6 | `@IsUUID` accepts exactly 36 characters with dashes at 8, 13, 18, 23 and hex digits elsewhere |
| MpesaDto.ValidMeaning | apps/api/src/modules/mpesa/dto/mpesa.dto.ts:3-15 | an STK-push body passes iff the invoice id is a UUID, the phone a Kenyan mobile and the amount at least 1 |
| MpesaFormat.DigitsOnly | apps/api/src/modules/mpesa/mpesa.service.ts:50 | the result keeps only ASCII digits and is no longer than the input |
| MpesaFormat.DigitsOnlyAppend | apps/api/src/modules/mpesa/mpesa.service.ts:50 | removing non-digits distributes over concatenation |
| MpesaFormat.DigitsOnlyKeepsDigits | apps/api/src/modules/mpesa/mpesa.service.ts:50 | an all-digit string is left unchanged |
| MpesaFormat.GatewayTimestamp | apps/api/src/modules/mpesa/mpesa.service.ts:50 | the timestamp is a prefix of the digits of the ISO string, all digits, at most 14 long, and the whole digit string when shorter |
| MpesaFormat.DigitsOnlyField | apps/api/src/modules/mpesa/mpesa.service.ts:50 | a run of digits ended by a separator survives whole and the separator is dropped |
| MpesaFormat.IsoTimestamp | apps/api/src/modules/mpesa/mpesa.service.ts:50 | for `YYYY-MM-DDTHH:mm:ss.sssZ`, the timestamp is exactly `YYYYMMDDHHmmss`, 14 digits |
| MpesaFormat.GatewayPhone | apps/api/src/modules/mpesa/mpesa.service.ts:53-54 | only the first `+` is removed; a string without one is unchanged |
| MpesaFormat.GatewayPhoneOfValidPhone | apps/api/src/modules/mpesa/mpesa.service.ts:53-54 | a valid phone becomes its last 12 characters: digits starting with `254` |
| MpesaFormat.AccountReference | apps/api/src/modules/mpesa/mpesa.service.ts:70 | the reference is the first `min(12, length)` characters of the invoice id |
| MpesaFormat.AccountReferenceOfUuid | apps/api/src/modules/mpesa/mpesa.service.ts:70 | for a UUID it is 12 characters long with the first dash at offset 8 |
| MpesaFormat.ReceiptItem | apps/api/src/modules/mpesa/mpesa.service.ts:103 | `find` returns an item named `MpesaReceiptNumber` that occurs in the list, and nothing iff no item has that name |
| MpesaService.PushRequestWellFormed | apps/api/src/modules/mpesa/mpesa.service.ts:48-72 | for a valid body and an ISO instant, the push body `MpesaService.PushRequest` carries a 14-digit timestamp, the 12-digit `254...` phone as both parties, the shortcode as payee, the amount, and a 12-character account reference |
| MpesaService.ReceiptItemIsFirst | apps/api/src/modules/mpesa/mpesa.service.ts:103 | `find` returns the first item named `MpesaReceiptNumber`, whichever position it is at |
| MpesaService.Completed | apps/api/src/modules/mpesa/mpesa.service.ts:103-114 | the settling update sets COMPLETED and the raw payload; the receipt is the text of the first `MpesaReceiptNumber` item, and stays as stored when no item has that name; every other column (id, tenant, agreement, invoice, amount, channel, checkout id) is kept |
| MpesaService.MarkPaid | apps/api/src/modules/mpesa/mpesa.service.ts:117-122 | exactly the named invoice becomes paid, all its other columns kept; every other invoice unchanged |
| MpesaService.InvoiceOfPayment | apps/api/src/modules/mpesa/mpesa.service.ts:117-119 | the invoice a payment names is stored and is the payment's tenant's |
| MpesaService.BookkeepingKeepsConsistent | apps/api/src/modules/mpesa/mpesa.service.ts:106-132 | rewriting payments and invoices without touching keys, owners, links or checkout ids keeps the database consistent |
| MpesaService.SettleKeepsKeys | apps/api/src/modules/mpesa/mpesa.service.ts:106-123 | settling changes only payment status, receipt, payload and `isPaid`; every other table is untouched |
| MpesaService.SettleKeepsConsistent | apps/api/src/modules/mpesa/mpesa.service.ts:106-123 | the settling transaction keeps the database consistent |
| MpesaService.SettleConfined | apps/api/src/modules/mpesa/mpesa.service.ts:106-123 | settling touches only rows of the payment's own tenant, though the client is unscoped |
| MpesaService.FailKeepsConsistent | apps/api/src/modules/mpesa/mpesa.service.ts:124-132 | marking a payment FAILED keeps the database consistent |
| MpesaService.FailConfined | apps/api/src/modules/mpesa/mpesa.service.ts:124-132 | marking a payment FAILED touches only the payment's own tenant's rows, though the lookup was unscoped |
| MpesaService.SettleIdempotent | apps/api/src/modules/mpesa/mpesa.service.ts:100-123 | a success callback delivered twice has the effect of one delivery |
| MpesaService.MpesaService.InitiateStkPush | apps/api/src/modules/mpesa/mpesa.service.ts:39-92 | errors in source order: `INVOICE_NOT_FOUND` (no gateway call), gateway unavailable (token call only), push failure; then a PENDING payment for the invoice's agreement; a duplicate checkout id gives an uncaught internal error; no write on error; the tenant's rows only |
| MpesaService.Matched | apps/api/src/modules/mpesa/mpesa.service.ts:107-108 | the unscoped lookup by `checkoutRequestId` finds a payment of any tenant holding that id, and nothing iff none does |
| MpesaService.OnlyMatch | apps/api/src/modules/mpesa/mpesa.service.ts:107-108 | with unique checkout ids, a correlation id names at most one payment |
| MpesaService.CallbackKeepsConsistent | apps/api/src/modules/mpesa/mpesa.service.ts:96-137 | a callback keeps the database consistent |
| MpesaService.CallbackConfined | apps/api/src/modules/mpesa/mpesa.service.ts:96-137 | a callback touches only rows of the matched payment's tenant, though the payment was looked up in every tenant |
| MpesaService.CallbackMeaning | apps/api/src/modules/mpesa/mpesa.service.ts:98-136 | no matching payment, or a numeric receipt the text column rejects: nothing changes (the error is logged and swallowed); success with metadata: the payment settles; any other result: the payment fails |
| MpesaService.MpesaService.HandleCallbackEvent | apps/api/src/modules/mpesa/mpesa.service.ts:96-137 | the new tables are the callback's outcome `MpesaService.CallbackOutcome` on the old ones, so every property of it above holds of the listener; consistency is kept |
| MpesaService.SettleMeaning | apps/api/src/modules/mpesa/mpesa.service.ts:101-122 | after the settling transaction `MpesaService.Settle`, the payment is COMPLETED with the payload and the receipt of the first `MpesaReceiptNumber` item (the stored one when there is none), all its other columns kept; its invoice, if any, is paid with all its other columns kept; every other payment and invoice is unchanged |
| MpesaService.FailLeavesInvoices | apps/api/src/modules/mpesa/mpesa.service.ts:124-132 | the failing update `MpesaService.Fail`: the payment is FAILED with the payload kept, its other columns and every other payment unchanged, and every invoice as it was |
| Query.Rows | apps/api/src/modules/properties/properties.service.ts:17-19 | a listing's rows are the table's rows at its keys, in order |
| Query.InsertPosition | apps/api/src/modules/properties/properties.service.ts:17-19 | the insertion point lies after every row that may precede the new one and before the first that may not |
| Query.Insert | apps/api/src/modules/properties/properties.service.ts:17-19 | inserting adds exactly the new key |
| Query.InsertKeepsListing | apps/api/src/modules/properties/properties.service.ts:17-20 | inserting at that point keeps the listing sorted and duplicate-free, and it lists exactly the kept rows seen so far |
| Query.SelectSorted | apps/api/src/modules/properties/properties.service.ts:17-20 | returns the keys of exactly the rows the filter keeps, each once, sorted by the requested order |
| Query.StrLeTotal | apps/api/src/modules/units/units.service.ts:25 | code-point string order is total |
| Query.StrLeTransitive | apps/api/src/modules/units/units.service.ts:25 | code-point string order is transitive |
| Store.NotOccupiedMeansFree | apps/api/src/modules/rental-agreements/rental-agreements.service.ts:18-21 | in a consistent database, a unit that is not OCCUPIED carries no active agreement, so the vacancy check is enough |
| Store.PropertyLookupScoped | apps/api/src/modules/properties/properties.service.ts:29-31 | the scoped `{ id, deletedAt: null }` filter matches a property row iff it is that live property of the tenant |
| Store.UnitLookupScoped | apps/api/src/modules/units/units.service.ts:22-32 | the same for units, filtered by `id` or by `propertyId`: exactly the tenant's live units with that id, or of that property |
| Store.RenterLookupScoped | apps/api/src/modules/renters/renters.service.ts:11-33 | the same for renters, filtered by `id` or by `phone`: the phone probe matches exactly the tenant's live renters with that phone |
| Store.ActiveAgreementLookupScoped | apps/api/src/modules/rent-invoices/rent-invoices.service.ts:10-13 | the scoped `{ id, isActive: true }` filter matches exactly the tenant's active agreement with that id |
| PropertiesService.PropertiesService.Create | apps/api/src/modules/properties/properties.service.ts:9-14 | inserts the DTO fields under a fresh id, stamped with the ambient tenant, live; nothing else changes |
| PropertiesService.PropertiesService.FindAll | apps/api/src/modules/properties/properties.service.ts:16-26 | exactly the tenant's live properties, each once, newest first |
| PropertiesService.PropertiesService.FindOne | apps/api/src/modules/properties/properties.service.ts:28-36 | the stored property iff it is live and the tenant's, else `PROPERTY_NOT_FOUND` |
| PropertiesService.PropertiesService.Update | apps/api/src/modules/properties/properties.service.ts:38-44 | `PROPERTY_NOT_FOUND` with no change, or the DTO fields written over the row; owner, creation time and deletion mark kept |
| PropertiesService.PropertiesService.Remove | apps/api/src/modules/properties/properties.service.ts:46-53 | soft delete: the row stays with `deletedAt` set and is no longer live; `PROPERTY_NOT_FOUND` for a missing or already removed property |
| PropertiesService.FindOneIsScopedLookup | apps/api/src/modules/properties/properties.service.ts:28-34 | the service's liveness test agrees with the scoped Prisma filter |
| UnitsService.ByNameIsTotalPreorder | apps/api/src/modules/units/units.service.ts:25 | ascending name order is a total preorder the listing can use |
| UnitsService.UpdateCanCrossTenants | apps/api/src/modules/units/units.service.ts:29-39 | as written, `update` can attach a tenant's unit to another tenant's stored property, which the foreign key lets through |
| UnitsService.CheckedReassignKeepsOwnership | apps/api/src/modules/units/units.service.ts:10-15 | with the `create`-style property check, reassigning a unit keeps every unit under a property of its own tenant |
| UnitsService.UnitsService.Create | apps/api/src/modules/units/units.service.ts:9-20 | `PROPERTY_NOT_FOUND` unless the property is live and the tenant's; the new unit is the tenant's, VACANT and live; unit ownership is preserved |
| UnitsService.UnitsService.FindAllByProperty | apps/api/src/modules/units/units.service.ts:22-27 | exactly the tenant's live units of the property, each once, by ascending name |
| UnitsService.UnitsService.Update | apps/api/src/modules/units/units.service.ts:29-39 | `UNIT_NOT_FOUND` with no change; a `propertyId` naming no stored property fails on the foreign key as an uncaught database error, with no change; otherwise the DTO fields are written (`UnitsService.Reassign`), so a successful update always names a stored property; status, owner and deletion mark never change |
| UnitsService.UnitsService.UpdateChecked | apps/api/src/modules/units/units.service.ts:10-15 | the corrected update: `UNIT_NOT_FOUND`, then `PROPERTY_NOT_FOUND`, then the write; unit ownership is preserved |
| RentersService.Overwrite | apps/api/src/modules/renters/renters.service.ts:45-51 | the DTO's fields replace the stored ones; an emergency contact left out keeps the stored one, a `null` one clears it, a given one replaces it; id, owner, status and timestamps kept |
| RentersService.UpdateCanDuplicatePhone | apps/api/src/modules/renters/renters.service.ts:45-51 | `update` does not re-check the phone: two live renters of one tenant can end up sharing it |
| RentersService.RentersService.Create | apps/api/src/modules/renters/renters.service.ts:9-22 | `RENTER_PHONE_ALREADY_EXISTS` iff a live renter of the tenant holds the phone; otherwise a live ACTIVE renter of the tenant; phone uniqueness among live renters is preserved |
| RentersService.RentersService.FindAll | apps/api/src/modules/renters/renters.service.ts:24-29 | exactly the tenant's live renters, each once, newest first |
| RentersService.RentersService.FindOne | apps/api/src/modules/renters/renters.service.ts:31-43 | the stored renter iff live and the tenant's, else `RENTER_NOT_FOUND` |
| RentersService.RentersService.Update | apps/api/src/modules/renters/renters.service.ts:45-51 | `RENTER_NOT_FOUND` with no change, or the overwritten row |
| RentersService.PhoneProbeIsScopedLookup | apps/api/src/modules/renters/renters.service.ts:10-17 | the conflict test agrees with the scoped Prisma filter on phone |
| RentalAgreementsService.OccupyKeepsConsistent | apps/api/src/modules/rental-agreements/rental-agreements.service.ts:31-49 | the create transaction `RentalAgreementsService.Occupy` (insert an active agreement on a live VACANT unit of the tenant and mark the unit OCCUPIED) keeps the database consistent |
| RentalAgreementsService.VacateKeepsConsistent | apps/api/src/modules/rental-agreements/rental-agreements.service.ts:84-99 | the terminate transaction `RentalAgreementsService.Vacate` (deactivate an active agreement and vacate its unit) keeps the database consistent |
| RentalAgreementsService.VacateFreesUnit | apps/api/src/modules/rental-agreements/rental-agreements.service.ts:84-99 | after termination the unit is VACANT with no active agreement, so it can be let again |
| RentalAgreementsService.RentalAgreementsService.Create | apps/api/src/modules/rental-agreements/rental-agreements.service.ts:10-50 | errors in source order: `UNIT_NOT_FOUND`, `UNIT_NOT_VACANT`, `RENTER_NOT_FOUND`, each with no change; else the active agreement is inserted and its unit OCCUPIED, atomically |
| RentalAgreementsService.RentalAgreementsService.FindAllActive | apps/api/src/modules/rental-agreements/rental-agreements.service.ts:52-61 | exactly the tenant's active agreements, each once, latest start first |
| RentalAgreementsService.RentalAgreementsService.FindOne | apps/api/src/modules/rental-agreements/rental-agreements.service.ts:63-75 | the tenant's agreement, active or not, else `RENTAL_AGREEMENT_NOT_FOUND` |
| RentalAgreementsService.RentalAgreementsService.Terminate | apps/api/src/modules/rental-agreements/rental-agreements.service.ts:77-100 | not found, then `AGREEMENT_ALREADY_TERMINATED`, each with no change; else deactivated, end date set, unit VACANT, atomically |
| RentInvoicesService.Patch | apps/api/src/modules/rent-invoices/rent-invoices.service.ts:54-61 | fails as an uncaught database error iff a field is `null` (neither column is nullable); otherwise only the given fields change and a field left out keeps its stored value |
| RentInvoicesService.PatchLaws | apps/api/src/modules/rent-invoices/rent-invoices.service.ts:54-61 | an empty patch succeeds and changes nothing; a patch that succeeds is idempotent |
| RentInvoicesService.RentInvoicesService.Create | apps/api/src/modules/rent-invoices/rent-invoices.service.ts:9-20 | `ACTIVE_RENTAL_AGREEMENT_NOT_FOUND` with no change unless the tenant has that active agreement; else an unpaid invoice with no late fee |
| RentInvoicesService.RentInvoicesService.FindAll | apps/api/src/modules/rent-invoices/rent-invoices.service.ts:22-34 | exactly the tenant's invoices, each once, latest due date first |
| RentInvoicesService.RentInvoicesService.FindOne | apps/api/src/modules/rent-invoices/rent-invoices.service.ts:36-52 | the tenant's invoice, else `INVOICE_NOT_FOUND` |
| RentInvoicesService.RentInvoicesService.Update | apps/api/src/modules/rent-invoices/rent-invoices.service.ts:54-61 | `INVOICE_NOT_FOUND` with no change; a `null` field is an uncaught database error with no change; otherwise the patched row is stored |
| RentInvoicesService.AgreementProbeIsScopedLookup | apps/api/src/modules/rent-invoices/rent-invoices.service.ts:10-15 | the active-agreement test agrees with the scoped Prisma filter |
| AuthService.GenerateTokens | apps/api/src/modules/auth/auth.service.ts:62-71 | the same claims signed for 900 s and for 604800 s; the returned user carries the given id, tenant and role |
| AuthService.UserByEmail | apps/api/src/modules/auth/auth.service.ts:51-53 | finds a stored user with that email iff one exists |
| AuthService.UserByEmailUnique | apps/api/src/modules/auth/auth.service.ts:51-53 | with unique emails, the lookup finds exactly the user holding the email |
| AuthService.AuthService.Register | apps/api/src/modules/auth/auth.service.ts:15-48 | `USER_ALREADY_EXISTS` with no change, or one new tenant and one LANDLORD user of it with the hashed password, and tokens for them |
| AuthService.AuthService.Login | apps/api/src/modules/auth/auth.service.ts:50-60 | the result is `AuthService.LoginOutcome`: tokens for the user with that email iff the password verifies; one `INVALID_CREDENTIALS` for an unknown email and a wrong password alike |
| AuthService.RegisteredUserCanLogIn | apps/api/src/modules/auth/auth.service.ts:15-60 | whoever registers can log in with the same email and password and gets their own tenant and LANDLORD role |
| Scenarios.LettingWalkthrough | apps/api/src/modules/rental-agreements/rental-agreements.service.ts:10-50 | letting a vacant unit succeeds and occupies it; a second agreement gets `UNIT_NOT_VACANT`; a renter with the same phone gets `RENTER_PHONE_ALREADY_EXISTS` |
| Scenarios.RemovedPropertyIsGone | apps/api/src/modules/properties/properties.service.ts:28-53 | after a remove, lookup, update and a second remove all answer `PROPERTY_NOT_FOUND`, and the row is kept |
| Scenarios.TwoInvoicesForOneLease | apps/api/src/modules/rent-invoices/rent-invoices.service.ts:9-20 | nothing prevents two invoices for the same agreement |

## Findings

| source | as written | input that shows it | evidently intended | confidence | as-written member | corrected member |
|---|---|---|---|---|---|---|
| apps/api/src/modules/units/units.service.ts:29-39 | `update` writes the DTO's `propertyId` after checking only that the unit is the tenant's; `create` (lines 10-15) also checks that the property is the tenant's | tenant `a` updates its unit `u` with `propertyId` set to tenant `b`'s property `pb` | the same `PROPERTY_NOT_FOUND` check as `create`, so a unit always hangs off a property of its own tenant | medium, not executed (the database may carry a constraint not visible here) | UnitsService.UpdateCanCrossTenants | UnitsService.UnitsService.UpdateChecked |

`UnitsService.UnitsService.Update` remains the as-written operation; `UpdateChecked` is the
corrected one, and `CheckedReassignKeepsOwnership` proves the ownership invariant for it.

## Left out

- Controllers, Nest modules, the HTTP layer and the web front end. The callback
  controller's immediate acknowledgement, and the event it emits, are not modelled;
  `HandleCallbackEvent` is the listener.
- AsyncLocalStorage: the ambient tenant is the parameter `t` (or `Option<TenantContext>`
  in `TenantScope`).
- The JWT strategy and guard that fill `request.user`. The user arrives as an
  `Option<JwtPayload>`.
- The Prisma schema is not part of this model. Assumed from it:
  - the column defaults: unit VACANT, renter ACTIVE, invoice unpaid with late fee 0
  - the unique columns `checkoutRequestId` and user `email`
  - the foreign keys from payment to invoice and from unit to property
  - nullability: a renter's emergency contact may be `NULL`; an invoice's `isPaid` and
    `lateFeeApplied` may not
- Filters are equality filters only: `TenantScope.Matches` compares each key of the
  `where` object with the row's value. A Prisma operator (`in`, `contains`, `OR`, a
  range) is an opaque `Other` value compared by equality, so the model does not select
  what Prisma would. The services modelled here filter by equality only.
- `include` joins (units of a property, agreement details, payment history) are not
  modelled. Each `findOne` returns the row itself.
- Collation: `orderBy` on strings uses code-point order; a database collation may order
  differently.
- Ties in `orderBy`: any order is allowed (`Query.SelectSorted` does not fix one).
- bcrypt, JWT signing and the gateway's HTTP calls are parameters. The OAuth token
  request, base64 encoding, and the `getOrThrow` failures of missing configuration are
  not modelled.
- MpesaService.MpesaService.InitiateStkPush: the race between two concurrent initiations
  is not modelled. Each call is one atomic step.
- MpesaService.MpesaService.HandleCallbackEvent:
  - does not check that the payment is still PENDING, because the source does not.
  - A callback for a COMPLETED payment is applied again (see
    `MpesaService.SettleIdempotent`).
  - The shape of the callback's inner fields is taken as given: the DTO validates only
    that `Body` is present.
- The creation of the payment row is returned, not awaited, inside the `try`. A database
  error there (a duplicate checkout id) escapes the `catch` and reaches the client as a
  generic internal error. This is modelled as `UncaughtDatabaseError`.
- RentersService.RentersService.Update: does not re-check the phone, because the source
  does not (see `RentersService.UpdateCanDuplicatePhone`). Phone uniqueness is preserved
  by `Create` only.
- MpesaDto.UuidMeaning: the version and variant digits of `@IsUUID` are not checked; any
  hexadecimal digit is accepted there.
- MpesaFormat.IsoTimestamp: covers years 0 to 9999 only. Expanded years (`+275760-...`)
  are not modelled.
- `@IsEmail` on the registration and login bodies is not modelled; any string is an
  email.
- Date strings in the DTOs (`startDate`, `dueDate`) arrive already parsed as integer
  timestamps.
- Integer widths: amounts are unbounded integers. The source's JavaScript numbers and
  database integer columns are not bounded here.
