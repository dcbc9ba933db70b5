/**
 * Login: the chain of checks `authenticate` applies to an alias and a password,
 * each ending the attempt with its own message.
 */
module Auth {
  import opened Wrappers
  import opened Text
  import opened Calendar
  import opened UsersService

  const ALIAS_REQUIRED: string := "Alias requerido."
  const USER_NOT_FOUND: string := "Usuario no encontrado."
  const USER_DISABLED: string := "Usuario deshabilitado."
  const WRONG_PASSWORD: string := "Contraseña incorrecta."

  /** The answer of `authenticate`: the user on success, otherwise the message shown. */
  datatype AuthOutcome = Authenticated(user: User) | Refused(message: string)

  /** `user.get("status", "active") == "active"`. */
  predicate Active(u: User) {
    u.status.GetOr("active") == "active"
  }

  /**
   * `authenticate`: a blank alias is refused before any lookup; then an unknown
   * alias, a disabled user, and an empty or non-matching hash, in that order.
   */
  function Authenticate(users: seq<User>, alias: string, password: string, verify: (string, string) -> bool): (r: AuthOutcome)
    ensures r == Refused(ALIAS_REQUIRED) <==> Strip(alias) == []
    ensures r == Refused(USER_NOT_FOUND) <==> Strip(alias) != [] && FindByAlias(users, alias).None?
    ensures r == Refused(USER_DISABLED) <==>
      Strip(alias) != [] && FindByAlias(users, alias).Some? && !Active(users[FindByAlias(users, alias).value])
    ensures r.Authenticated? <==>
      Strip(alias) != [] && FindByAlias(users, alias).Some?
      && var u := users[FindByAlias(users, alias).value];
         Active(u) && u.passwordHash != "" && verify(password, u.passwordHash)
    ensures r.Authenticated? ==> r.user == users[FindByAlias(users, alias).value] && r.user.aliasCi == CiKey(alias)
    ensures r.Refused? ==> r.message in {ALIAS_REQUIRED, USER_NOT_FOUND, USER_DISABLED, WRONG_PASSWORD}
  {
    var aliasClean := Strip(alias);
    assert Strip(aliasClean) == aliasClean;
    if aliasClean == [] then Refused(ALIAS_REQUIRED)
    else
      var found := FindByAlias(users, aliasClean);
      if found.None? then Refused(USER_NOT_FOUND)
      else
        var u := users[found.value];
        if !Active(u) then Refused(USER_DISABLED)
        else if u.passwordHash == "" || !verify(password, u.passwordHash) then Refused(WRONG_PASSWORD)
        else Authenticated(u)
  }

  /** The alias is matched without regard to case or surrounding spaces. */
  lemma AliasCaseIgnored(users: seq<User>, a: string, b: string, password: string, verify: (string, string) -> bool)
    requires CiKey(a) == CiKey(b)
    ensures Authenticate(users, a, password, verify) == Authenticate(users, b, password, verify)
  {
    assert |CiKey(a)| == |Strip(a)| && |CiKey(b)| == |Strip(b)|;
  }

  /**
   * A user just created logs in with their alias exactly when the password
   * verifies against the stored hash, unless the alias is blank.
   */
  lemma CreatedUserLogsIn(users: seq<User>, p: CreateIn, passwordHash: string, now: Instant,
                          password: string, verify: (string, string) -> bool)
    requires CreateUserOutcome(users, p, passwordHash, now).Ok?
    ensures var after := users + [CreateUserOutcome(users, p, passwordHash, now).value];
      Strip(p.alias) != [] ==>
        (Authenticate(after, p.alias, password, verify).Authenticated? <==> passwordHash != "" && verify(password, passwordHash))
    ensures var after := users + [CreateUserOutcome(users, p, passwordHash, now).value];
      Strip(p.alias) == [] ==> Authenticate(after, p.alias, password, verify) == Refused(ALIAS_REQUIRED)
  {
    var u := CreateUserOutcome(users, p, passwordHash, now).value;
    var after := users + [u];
    NewUserStored(p, passwordHash, now);
    FindAppended(users, u, p.alias);
  }

  /** Appending a user whose key no earlier user has makes a lookup by that key find the new one. */
  lemma FindAppended(users: seq<User>, u: User, alias: string)
    requires FindByAlias(users, alias).None?
    requires u.aliasCi == CiKey(alias)
    ensures FindByAlias(users + [u], alias) == Some(|users|)
  {
    var all := users + [u];
    var r := FindByAlias(all, alias);
    assert all[|users|].aliasCi == CiKey(alias);
    assert r.Some?;
    assert forall i :: 0 <= i < |users| ==> all[i] == users[i];
  }

  /** After a password change, the user's login turns on the new hash alone. */
  lemma LoginAfterPasswordChange(users: seq<User>, id: nat, actual: string, newHash: string, now: Instant,
                                 verify: (string, string) -> bool, password: string)
    requires UniqueKeys(users)
    requires ChangePasswordOutcome(users, id, actual, newHash, now, verify).Ok?
    requires Strip(users[id].alias) != [] && users[id].aliasCi == CiKey(users[id].alias) && Active(users[id])
    ensures var after := users[id := ChangePasswordOutcome(users, id, actual, newHash, now, verify).value];
      Authenticate(after, users[id].alias, password, verify).Authenticated? <==> newHash != "" && verify(password, newHash)
  {
    var after := users[id := ChangePasswordOutcome(users, id, actual, newHash, now, verify).value];
    ChangePasswordKeepsUnique(users, id, actual, newHash, now, verify);
    var f := FindByAlias(after, users[id].alias);
    assert after[id].aliasCi == CiKey(users[id].alias);
    assert f.Some?;
    assert forall j :: 0 <= j < |after| && j != id ==> after[j].aliasCi != after[id].aliasCi;
    assert f.value == id;
  }

  /** A disabled user is refused whatever the password. */
  lemma DisabledNeverLogsIn(users: seq<User>, alias: string, password: string, verify: (string, string) -> bool)
    requires Strip(alias) != [] && FindByAlias(users, alias).Some?
    requires users[FindByAlias(users, alias).value].status == Some("disabled")
    ensures Authenticate(users, alias, password, verify) == Refused(USER_DISABLED)
  {
  }
}
