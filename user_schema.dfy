/** The user schema's validators (app/schemas/user.py): role normalisation
    against the set of allowed roles, the password check, and the defaults
    a user body gets when the client omits `rol` or `activo`. */
module UserSchema {
  import opened Common
  import opened Text

  /** The roles valid anywhere in the system. */
  const AllowedRoles: set<string> := {"OPERADOR", "SUPERVISOR", "ADMIN"}
  const DefaultRole: string := "OPERADOR"
  const DefaultActivo: bool := true

  const EmptyRoleDetail: string := "El rol no puede estar vacío"
  /** The roles are listed sorted and joined by " - ". */
  const InvalidRoleDetail: string := "Rol inválido. Debe ser uno de: ADMIN - OPERADOR - SUPERVISOR"
  const EmptyPasswordDetail: string := "La contraseña no puede estar vacía"
  const ShortPasswordDetail: string := "La contraseña debe tener al menos 6 caracteres"
  const MinPasswordLength: nat := 6

  /** `v.strip().upper()` */
  function NormalizeRole(v: string): string {
    Upper(Strip(v))
  }

  /** `UserBase.validate_rol`: the normalised role, or a validation error. */
  function ValidateRol(v: string): (r: Result<string>)
    ensures v == "" ==> r == Err(Validation(EmptyRoleDetail))
    ensures v != "" ==> (r.Ok? <==> NormalizeRole(v) in AllowedRoles)
    ensures v != "" && r.Err? ==> r.error == Validation(InvalidRoleDetail)
    ensures r.Ok? ==> r.value == NormalizeRole(v) && r.value in AllowedRoles
  {
    if v == "" then Err(Validation(EmptyRoleDetail))
    else
      var normalized := NormalizeRole(v);
      if normalized !in AllowedRoles then Err(Validation(InvalidRoleDetail))
      else Ok(normalized)
  }

  /** `UserCreate.validate_password`: the password unchanged, or the error
      of the first check it fails. */
  function ValidatePassword(v: string): (r: Result<string>)
    ensures AllSpace(v) ==> r == Err(Validation(EmptyPasswordDetail))
    ensures !AllSpace(v) && |v| < MinPasswordLength ==> r == Err(Validation(ShortPasswordDetail))
    ensures r.Ok? <==> !AllSpace(v) && |v| >= MinPasswordLength
    ensures r.Ok? ==> r.value == v
  {
    if v == "" || Strip(v) == "" then Err(Validation(EmptyPasswordDetail))
    else if |v| < MinPasswordLength then Err(Validation(ShortPasswordDetail))
    else Ok(v)
  }

  datatype UserBase = UserBase(nombre: string, email: string, rol: string, activo: bool)

  /** Building a `UserBase` from a request body: an omitted `rol` or
      `activo` takes its default (pydantic does not run the validator on a
      default); a sent `rol` goes through `validate_rol`. */
  function MakeUserBase(nombre: string, email: string, rol: Option<string>, activo: Option<bool>): (r: Result<UserBase>)
    ensures rol.None? ==> r.Ok? && r.value.rol == DefaultRole
    ensures activo.None? && r.Ok? ==> r.value.activo == DefaultActivo
    ensures activo.Some? && r.Ok? ==> r.value.activo == activo.value
    ensures rol.Some? ==> (r.Ok? <==> ValidateRol(rol.value).Ok?)
    ensures r.Ok? ==> r.value.rol in AllowedRoles
    ensures r.Ok? ==> r.value.nombre == nombre && r.value.email == email
  {
    var a := if activo.Some? then activo.value else DefaultActivo;
    match rol
    case None => Ok(UserBase(nombre, email, DefaultRole, a))
    case Some(v) =>
      match ValidateRol(v)
      case Err(e) => Err(e)
      case Ok(n) => Ok(UserBase(nombre, email, n, a))
  }

  /** An allowed role has no blanks and no lower-case letters. */
  lemma AllowedRolesNormalized(r: string)
    requires r in AllowedRoles
    ensures NormalizeRole(r) == r
  {
    assert forall i :: 0 <= i < |r| ==> !IsSpace(r[i]) && UpperChar(r[i]) == r[i];
    assert StripLeft(r) == r;
    assert StripRight(r) == r;
  }

  /** Every allowed role is accepted as it is. */
  lemma AllowedRoleAccepted(r: string)
    requires r in AllowedRoles
    ensures ValidateRol(r) == Ok(r)
  {
    assert r != "";
    assert NormalizeRole(r) == r by { AllowedRolesNormalized(r); }
  }

  /** Re-validating an accepted role gives it back unchanged. */
  lemma ValidateRolIdempotent(v: string)
    requires ValidateRol(v).Ok?
    ensures ValidateRol(ValidateRol(v).value) == ValidateRol(v)
  {
    AllowedRoleAccepted(ValidateRol(v).value);
  }

  /** The role given when the client sends none would itself be accepted. */
  lemma DefaultRoleAccepted()
    ensures ValidateRol(DefaultRole) == Ok(DefaultRole)
  {
    AllowedRoleAccepted(DefaultRole);
  }

  /** Case does not matter: a lower-case role is accepted upper-cased. */
  lemma ValidateRolExample()
    ensures ValidateRol("admin") == Ok("ADMIN")
  {
    NormalizeAdmin();
    assert "ADMIN" in AllowedRoles;
  }

  lemma NormalizeAdmin()
    ensures NormalizeRole("admin") == "ADMIN"
  {
    StripAdmin();
    var s, u := "admin", Upper("admin");
    assert |u| == 5;
    assert UpperChar(s[0]) == 'A' && UpperChar(s[1]) == 'D' && UpperChar(s[2]) == 'M';
    assert UpperChar(s[3]) == 'I' && UpperChar(s[4]) == 'N';
    assert u[0] == 'A' && u[1] == 'D' && u[2] == 'M' && u[3] == 'I' && u[4] == 'N';
    assert u == "ADMIN";
  }

  lemma StripAdmin()
    ensures Strip("admin") == "admin"
  {
    var s := "admin";
    assert s[0] == 'a' && s[|s| - 1] == 'n';
    StripUnchanged(s);
  }



}
