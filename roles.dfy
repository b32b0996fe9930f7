/** The role gates of app/core/roles.py as predicates on the authenticated
    user: each lets the user through unchanged or fails with Forbidden.
    Authentication itself (decoding the token into a user) is not part of
    this model. */
module Roles {
  import opened Common
  import opened Records
  import UserSchema

  const AdminDetail: string := "No tienes permiso, se requiere rol ADMIN."
  const SupervisorOrAdminDetail: string := "No tienes permiso, se requiere rol SUPERVISOR o ADMIN."
  const OperatorOrAdminDetail: string := "No tienes permiso, se requiere rol OPERADOR o ADMIN."

  /** `require_user`: any authenticated user. */
  function RequireUser(u: User): (r: Result<User>)
    ensures r.Ok? && r.value == u
  {
    Ok(u)
  }

  /** `require_admin` */
  function RequireAdmin(u: User): (r: Result<User>)
    ensures r.Ok? <==> u.rol == "ADMIN"
    ensures r.Ok? ==> r.value == u
    ensures r.Err? ==> r.error == Forbidden(AdminDetail)
  {
    if u.rol != "ADMIN" then Err(Forbidden(AdminDetail)) else Ok(u)
  }

  /** `require_supervisor_or_admin` */
  function RequireSupervisorOrAdmin(u: User): (r: Result<User>)
    ensures r.Ok? <==> u.rol == "SUPERVISOR" || u.rol == "ADMIN"
    ensures r.Ok? ==> r.value == u
    ensures r.Err? ==> r.error == Forbidden(SupervisorOrAdminDetail)
  {
    if u.rol !in ["SUPERVISOR", "ADMIN"] then Err(Forbidden(SupervisorOrAdminDetail)) else Ok(u)
  }

  /** `require_operator_or_admin` */
  function RequireOperatorOrAdmin(u: User): (r: Result<User>)
    ensures r.Ok? <==> u.rol == "OPERADOR" || u.rol == "ADMIN"
    ensures r.Ok? ==> r.value == u
    ensures r.Err? ==> r.error == Forbidden(OperatorOrAdminDetail)
  {
    if u.rol !in ["OPERADOR", "ADMIN"] then Err(Forbidden(OperatorOrAdminDetail)) else Ok(u)
  }

  /** ADMIN passes every gate; SUPERVISOR and OPERADOR each pass exactly
      one of the two mixed gates, and neither passes the ADMIN gate. */
  lemma GateTable(u: User)
    ensures u.rol == "ADMIN" ==>
      RequireAdmin(u).Ok? && RequireSupervisorOrAdmin(u).Ok? && RequireOperatorOrAdmin(u).Ok?
    ensures u.rol == "SUPERVISOR" ==>
      RequireAdmin(u).Err? && RequireSupervisorOrAdmin(u).Ok? && RequireOperatorOrAdmin(u).Err?
    ensures u.rol == "OPERADOR" ==>
      RequireAdmin(u).Err? && RequireSupervisorOrAdmin(u).Err? && RequireOperatorOrAdmin(u).Ok?
  {
  }

  /** Every gate admits only roles the user schema accepts, so a role
      outside the allowed set (for instance the lower-case "admin" stored
      without validation) is refused by all three. */
  lemma GatesAdmitOnlyAllowedRoles(u: User)
    ensures RequireAdmin(u).Ok? || RequireSupervisorOrAdmin(u).Ok? || RequireOperatorOrAdmin(u).Ok?
            <==> u.rol in UserSchema.AllowedRoles
  {
  }
}
