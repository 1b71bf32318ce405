/** The tenant interceptor: it reads the authenticated user from the request,
    refuses the request when no tenant can be taken from it, and otherwise runs
    the rest of the request inside a context holding that tenant id. The
    request-scoped storage is made explicit: the handler receives the context. */
module TenantInterceptor {
  import opened Common
  import TenantScope

  /** The principal the JWT guard attaches to the request (`request.user`);
      a token without a `tenantId` claim yields `None` there. */
  datatype JwtPayload = JwtPayload(sub: Option<string>, email: Option<string>, role: Role, tenantId: Option<string>)

  const MissingTenant: Error := Unauthorized("MISSING_TENANT_CONTEXT")

  /** The context the interceptor binds, or the rejection it raises. */
  function BindContext(user: Option<JwtPayload>): (r: Result<TenantContext>)
    ensures r.Err? <==> user.None? || user.value.tenantId.None? || user.value.tenantId.value == ""
    ensures r.Err? ==> r.error == MissingTenant
    ensures r.Ok? ==> r.value.tenantId == user.value.tenantId.value && r.value.tenantId != ""
  {
    if user.None? || user.value.tenantId.None? || user.value.tenantId.value == "" then Err(MissingTenant)
    else Ok(TenantContext(user.value.tenantId.value))
  }

  /** `intercept(context, next)`: the downstream handler runs only when a
      context could be bound, and then sees exactly that context. */
  function Intercept<R>(user: Option<JwtPayload>, handle: TenantContext -> R): (r: Result<R>)
    ensures r.Err? <==> BindContext(user).Err?
    ensures r.Err? ==> r.error == MissingTenant
    ensures r.Ok? ==> r.value == handle(TenantContext(user.value.tenantId.value))
  {
    match BindContext(user)
    case Err(e) => Err(e)
    case Ok(ctx) => Ok(handle(ctx))
  }

  /** A rejected request never reaches its handler: the outcome is the same
      whichever handler stands behind the interceptor. */
  lemma RejectionIgnoresHandler<R>(user: Option<JwtPayload>, h1: TenantContext -> R, h2: TenantContext -> R)
    requires Intercept(user, h1).Err?
    ensures Intercept(user, h2) == Intercept(user, h1) == Err(MissingTenant)
  {
  }

  /** Every query a handler behind the interceptor issues is scoped: under the
      bound context, a filtering operation on a tenant-owned model only
      selects rows of the requesting user's tenant, and a create only writes
      rows stamped with it. */
  lemma AcceptedRequestsAreScoped(user: Option<JwtPayload>, model: string, operation: string,
                                  args: TenantScope.Args, row: TenantScope.Obj)
    requires BindContext(user).Ok? && model !in TenantScope.ExcludedModels
    ensures var ctx := BindContext(user).value;
      var r := TenantScope.ScopeArgs(model, operation, args, Some(ctx));
      var own := TenantScope.Str(user.value.tenantId.value);
      && (operation in TenantScope.WhereOps && TenantScope.Matches(row, r.where.value) ==>
            TenantScope.TenantKey in row && row[TenantScope.TenantKey] == own)
      && (operation in TenantScope.CreateOps ==>
            forall o :: o in TenantScope.Written(r.data) ==> o[TenantScope.TenantKey] == own)
  {
    var ctx := BindContext(user).value;
    TenantScope.ScopedQueryTouchesOnlyTenantRows(model, operation, args, ctx.tenantId, row);
  }
}
