/** The roles guard: the roles a route requires come from the `@Roles`
    metadata of the handler, or of its controller class when the handler has
    none; the request passes when the user's role is one of them, and is
    refused with a Forbidden error otherwise. */
module RolesGuard {
  import opened Common

  const InsufficientPermissions: Error := Forbidden("INSUFFICIENT_PERMISSIONS")

  /** `reflector.getAllAndOverride(key, [handler, class])`: the first
      metadata value that is defined wins. */
  function GetAllAndOverride(handlerRoles: Option<seq<Role>>, classRoles: Option<seq<Role>>): Option<seq<Role>> {
    if handlerRoles.Some? then handlerRoles else classRoles
  }

  /** `canActivate`: true, or the Forbidden error; it never returns false. */
  function CanActivate(handlerRoles: Option<seq<Role>>, classRoles: Option<seq<Role>>, userRole: Role): (r: Result<bool>)
    ensures r.Ok? ==> r.value
    ensures r.Err? ==> r.error == InsufficientPermissions
    ensures handlerRoles.Some? ==> (r.Ok? <==> userRole in handlerRoles.value)
    ensures handlerRoles.None? && classRoles.Some? ==> (r.Ok? <==> userRole in classRoles.value)
    ensures handlerRoles.None? && classRoles.None? ==> r.Ok?
  {
    var required := GetAllAndOverride(handlerRoles, classRoles);
    if required.None? then Ok(true)
    else if userRole !in required.value then Err(InsufficientPermissions)
    else Ok(true)
  }

  /** Handler-level roles decide alone; the class-level list is not consulted. */
  lemma HandlerRolesOverrideClassRoles(handlerRoles: seq<Role>, classRoles: Option<seq<Role>>, userRole: Role)
    ensures CanActivate(Some(handlerRoles), classRoles, userRole) == CanActivate(Some(handlerRoles), None, userRole)
  {
  }

  /** An empty list is defined metadata, not absent metadata: it refuses every role. */
  lemma EmptyRoleListRefusesEveryone(classRoles: Option<seq<Role>>, userRole: Role)
    ensures CanActivate(Some([]), classRoles, userRole) == Err(InsufficientPermissions)
  {
  }
}
