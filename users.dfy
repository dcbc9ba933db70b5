/**
 * The user schema's roles: the nine roles a user may hold, the one alias the
 * back-office accepts for them, and the normalisation every role value goes
 * through before it is stored.
 */
module Users {
  import opened Wrappers
  import opened Text

  /** The `UserRole` literal. */
  const ROLES: set<string> := {
    "admin", "gerente", "jefe_produccion", "jefe_planta", "operador",
    "jefe_bodega", "jefe_picking", "informatica", "trabajador"
  }

  /** The role a new user gets when none is given. */
  const DEFAULT_ROLE: string := "trabajador"

  /** The `UserStatus` literal. */
  const STATUSES: set<string> := {"active", "disabled"}

  /** A role value outside the nine roles. */
  datatype RoleError = RoleNotAllowed

  /** The text `normalize_role_value` looks up: stripped, lower-cased, spaces as underscores. */
  function RoleText(v: string): string {
    ReplaceChar(Lower(Strip(v)), ' ', '_')
  }

  /** `_ROLE_ALIASES.get(t, t)`. */
  function RoleAlias(t: string): string {
    if t == "administrador" then "admin" else t
  }

  /**
   * `normalize_role_value`: None stays None; any other value is normalised and
   * resolved through the alias table, and must then be one of the nine roles.
   */
  function NormalizeRoleValue(value: Option<string>): (r: Result<Option<string>, RoleError>)
    ensures r == Ok(None) <==> value.None?
    ensures r.Ok? && r.value.Some? ==> r.value.value in ROLES
    ensures value.Some? ==> (r.Err? <==> RoleAlias(RoleText(value.value)) !in ROLES)
    ensures value.Some? && RoleText(value.value) == "administrador" ==> r == Ok(Some("admin"))
  {
    if value.None? then Ok(None)
    else
      var normalized := RoleAlias(RoleText(value.value));
      if normalized in ROLES then Ok(Some(normalized)) else Err(RoleNotAllowed)
  }

  /** The role validator of `UserCreateIn`: a missing role becomes the default. */
  function CreateRole(value: Option<string>): (r: Result<string, RoleError>)
    ensures value.None? ==> r == Ok(DEFAULT_ROLE)
    ensures r.Ok? ==> r.value in ROLES
    ensures value.Some? ==> (r.Ok? <==> NormalizeRoleValue(value).Ok?)
    ensures value.Some? && r.Ok? ==> NormalizeRoleValue(value) == Ok(Some(r.value))
  {
    match NormalizeRoleValue(value)
    case Err(e) => Err(e)
    case Ok(v) => Ok(v.GetOr(DEFAULT_ROLE))
  }

  /** A role name spelt in lower-case ASCII letters and underscores. */
  predicate Canonical(s: string) {
    forall i :: 0 <= i < |s| ==> ('a' <= s[i] <= 'z') || s[i] == '_'
  }

  /** A canonical name is untouched by `strip`, `lower` and the space replacement. */
  lemma CanonicalRoleText(s: string)
    requires Canonical(s)
    ensures RoleText(s) == s
  {
    assert Strip(s) == s;
    assert Lower(s) == s by {
      forall i | 0 <= i < |s| ensures LowerChar(s[i]) == s[i] {
      }
    }
  }

  lemma RolesAreCanonical()
    ensures forall r :: r in ROLES ==> Canonical(r)
  {
    assert Canonical("admin");
    assert Canonical("gerente");
    assert Canonical("jefe_produccion");
    assert Canonical("jefe_planta");
    assert Canonical("operador");
    assert Canonical("jefe_bodega");
    assert Canonical("jefe_picking");
    assert Canonical("informatica");
    assert Canonical("trabajador");
  }

  /** Normalising a role that is already allowed returns it unchanged. */
  lemma AllowedRoleUnchanged(role: string)
    requires role in ROLES
    ensures NormalizeRoleValue(Some(role)) == Ok(Some(role))
  {
    RolesAreCanonical();
    CanonicalRoleText(role);
  }

  /** Normalisation is idempotent: a normalised role normalises to itself. */
  lemma NormalizeIdempotent(value: Option<string>)
    requires NormalizeRoleValue(value).Ok?
    ensures NormalizeRoleValue(NormalizeRoleValue(value).value) == NormalizeRoleValue(value)
  {
    var r := NormalizeRoleValue(value).value;
    if r.Some? {
      AllowedRoleUnchanged(r.value);
    }
  }

  /** The values accepted for a role are exactly those whose normal form, after the alias, is a role. */
  lemma AcceptedIffNormalFormIsRole(v: string)
    ensures NormalizeRoleValue(Some(v)).Ok? <==> RoleAlias(RoleText(v)) in ROLES
    ensures NormalizeRoleValue(Some(v)).Ok? ==> NormalizeRoleValue(Some(RoleAlias(RoleText(v)))) == NormalizeRoleValue(Some(v))
  {
    if RoleAlias(RoleText(v)) in ROLES {
      AllowedRoleUnchanged(RoleAlias(RoleText(v)));
    }
  }

  /** Leading whitespace never changes the outcome: the value is stripped first. */
  lemma LeadingSpaceIgnored(v: string)
    ensures NormalizeRoleValue(Some(" " + v)) == NormalizeRoleValue(Some(v))
  {
    assert (" " + v)[1..] == v;
    assert Strip(" " + v) == Strip(v);
  }
}
