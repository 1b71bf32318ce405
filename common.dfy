/** Shared vocabulary of the rental API model: optional values, the error
    outcomes the NestJS services raise, identifiers, roles and the per-request
    tenant context. */
module Common {

  datatype Option<+T> = None | Some(value: T)

  /** An optional field of a JSON request body: left out (`undefined`), sent
      as `null`, or given a value. `@IsOptional()` lets the first two through
      unchecked, and Prisma leaves a column alone for the first but writes
      `NULL` for the second. */
  datatype Field<+T> = Undefined | ExplicitNull | Given(value: T)

  /** A service call either returns a value or raises one of the HTTP
      exceptions described by `Error`. */
  datatype Result<+T> = Ok(value: T) | Err(error: Error)

  /** The exceptions the services throw, each with its machine-readable code. */
  datatype Error =
    | NotFound(code: string)       // NotFoundException
    | Conflict(code: string)       // ConflictException
    | Unauthorized(code: string)   // UnauthorizedException
    | Forbidden(code: string)      // ForbiddenException
    | Internal(message: string)    // InternalServerErrorException, or a database error surfacing as HTTP 500

  /** What an uncaught database error (a violated constraint) becomes at the
      HTTP boundary. */
  const UncaughtDatabaseError: Error := Internal("Internal server error")

  /** Primary keys are database-generated UUID strings. */
  type Id = string

  /** An instant (`new Date()`); only its order is ever used. */
  type Timestamp = int

  /** The closed set of user roles (Prisma enum `UserRole`). */
  datatype Role = SUPER_ADMIN | PROPERTY_MANAGER | LANDLORD | ACCOUNTANT | TENANT

  /** What the request-scoped storage holds for the duration of one request. */
  datatype TenantContext = TenantContext(tenantId: string)

  function Min(a: int, b: int): int {
    if a <= b then a else b
  }

  /** The index of the first element satisfying `p`, or `|s|` when there is
      none: the search behind `Array.prototype.find` and `String.prototype.indexOf`. */
  function FindIndex<T>(s: seq<T>, p: T -> bool): (i: nat)
    ensures i <= |s|
    ensures i < |s| ==> p(s[i])
    ensures forall j :: 0 <= j < i ==> !p(s[j])
  {
    if s == [] then 0
    else if p(s[0]) then 0
    else 1 + FindIndex(s[1..], p)
  }
}
