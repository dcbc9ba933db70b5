/**
 * The users service: creating a user behind case-insensitive alias and e-mail
 * checks, updating the supplied fields of a user, and changing a password only
 * after the current one is verified. Password hashing and verification are
 * parameters: the service only stores and compares what they return.
 */
module UsersService {
  import opened Wrappers
  import opened Text
  import opened Calendar
  import Users

  /**
   * A user document. `status` is None for a document written without one
   * (read as "active"); an absent `passwordHash` reads as "".
   */
  datatype User = User(
    email: string,
    emailCi: string,
    alias: string,
    aliasCi: string,
    passwordHash: string,
    nombre: string,
    apellido: Option<string>,
    role: string,
    status: Option<string>,
    createdAt: Instant,
    updatedAt: Instant)

  /** The key both unique indexes and both lookups compare on: `s.strip().lower()`. */
  function CiKey(s: string): string {
    Lower(Strip(s))
  }

  /** A stored role and status are values of the `UserRole` and `UserStatus` literals. */
  predicate Admissible(u: User) {
    u.role in Users.ROLES && (u.status.Some? ==> u.status.value in Users.STATUSES)
  }

  /** The unique indexes on `email_ci` and `alias_ci`. */
  predicate UniqueKeys(users: seq<User>) {
    forall i, j :: 0 <= i < j < |users| ==> users[i].aliasCi != users[j].aliasCi && users[i].emailCi != users[j].emailCi
  }

  /** `find_one_by_alias`: the first user whose `alias_ci` is the query's key. */
  function FindByAlias(users: seq<User>, alias: string): (r: Option<nat>)
    ensures r.None? <==> forall i :: 0 <= i < |users| ==> users[i].aliasCi != CiKey(alias)
    ensures r.Some? ==> r.value < |users| && users[r.value].aliasCi == CiKey(alias)
    ensures r.Some? ==> forall i :: 0 <= i < r.value ==> users[i].aliasCi != CiKey(alias)
  {
    if users == [] then None
    else if users[0].aliasCi == CiKey(alias) then Some(0)
    else
      var rest := FindByAlias(users[1..], alias);
      if rest.Some? then Some(rest.value + 1) else None
  }

  /** `find_by_email` found a user. */
  predicate EmailTaken(users: seq<User>, email: string) {
    exists i :: 0 <= i < |users| && users[i].emailCi == CiKey(email)
  }

  /** Why a users-service call is refused. */
  datatype UserError = AliasExists | EmailExists | UserNotFound | AliasConflict | WrongPassword

  /** `UserCreateIn`, its role already normalised. */
  datatype CreateIn = CreateIn(email: string, password: string, nombre: string, alias: string, apellido: Option<string>, role: string)

  /** What `UserCreateIn` lets through: its role validator leaves one of the nine roles. */
  predicate CreateInValid(p: CreateIn) { p.role in Users.ROLES }

  /** The document `create_user` inserts; `passwordHash` is what hashing the password returned. */
  function NewUser(p: CreateIn, passwordHash: string, now: Instant): User {
    User(Strip(p.email), Lower(Strip(p.email)), Strip(p.alias), Lower(Strip(p.alias)), passwordHash,
         Strip(p.nombre), StrippedOrNone(p.apellido), p.role, Some("active"), now, now)
  }

  /**
   * The stored user: alias and e-mail stripped, their keys the lower-case forms,
   * status "active", a blank apellido absent, and both audit stamps `now`.
   */
  lemma NewUserStored(p: CreateIn, passwordHash: string, now: Instant)
    ensures NewUser(p, passwordHash, now).aliasCi == Lower(NewUser(p, passwordHash, now).alias) == CiKey(p.alias)
    ensures NewUser(p, passwordHash, now).emailCi == Lower(NewUser(p, passwordHash, now).email) == CiKey(p.email)
    ensures NewUser(p, passwordHash, now).status == Some("active")
    ensures NewUser(p, passwordHash, now).apellido.None? <==> p.apellido.None? || Strip(p.apellido.value) == []
    ensures NewUser(p, passwordHash, now).createdAt == now == NewUser(p, passwordHash, now).updatedAt
    ensures CiKey(NewUser(p, passwordHash, now).alias) == CiKey(p.alias)
    ensures NewUser(p, passwordHash, now).role == p.role
    ensures CreateInValid(p) <==> Admissible(NewUser(p, passwordHash, now))
  {
    var a := Strip(p.alias);
    assert Strip(a) == a;
  }

  /** `create_user`'s decision: the alias is checked first, then the e-mail, both case-insensitively. */
  function CreateUserOutcome(users: seq<User>, p: CreateIn, passwordHash: string, now: Instant): (r: Result<User, UserError>)
    ensures r == Err(AliasExists) <==> FindByAlias(users, p.alias).Some?
    ensures r == Err(EmailExists) <==> FindByAlias(users, p.alias).None? && EmailTaken(users, p.email)
    ensures r.Ok? ==> r.value == NewUser(p, passwordHash, now)
  {
    var aliasClean := Strip(p.alias);
    var emailClean := Strip(p.email);
    assert CiKey(aliasClean) == CiKey(p.alias) && CiKey(emailClean) == CiKey(p.email);
    if FindByAlias(users, aliasClean).Some? then Err(AliasExists)
    else if EmailTaken(users, emailClean) then Err(EmailExists)
    else Ok(NewUser(p, passwordHash, now))
  }

  /** A created user never breaks either unique index. */
  lemma CreateKeepsUnique(users: seq<User>, p: CreateIn, passwordHash: string, now: Instant)
    requires UniqueKeys(users)
    requires CreateUserOutcome(users, p, passwordHash, now).Ok?
    ensures UniqueKeys(users + [CreateUserOutcome(users, p, passwordHash, now).value])
  {
    var u := CreateUserOutcome(users, p, passwordHash, now).value;
    NewUserStored(p, passwordHash, now);
    var all := users + [u];
    forall i, j | 0 <= i < j < |all|
      ensures all[i].aliasCi != all[j].aliasCi && all[i].emailCi != all[j].emailCi
    {
      if j == |users| {
        assert all[i] == users[i];
        assert !EmailTaken(users, p.email);
      }
    }
  }

  /** `UserUpdateIn`, its role already normalised. */
  datatype UpdateIn = UpdateIn(
    nombre: Option<string>,
    apellido: Option<string>,
    alias: Option<string>,
    role: Option<string>,
    status: Option<string>)

  /** What `UserUpdateIn` lets through: a given role is one of the nine, a given status one of the two. */
  predicate UpdateInValid(b: UpdateIn) {
    (b.role.Some? ==> b.role.value in Users.ROLES) && (b.status.Some? ==> b.status.value in Users.STATUSES)
  }

  /** The `$set` of `update_user`: each supplied field, `alias_ci` with the alias, and always `updatedAt`. */
  function UpdatedUser(u: User, b: UpdateIn, now: Instant): (r: User)
    ensures r.email == u.email && r.emailCi == u.emailCi && r.passwordHash == u.passwordHash
    ensures r.createdAt == u.createdAt && r.updatedAt == now
    ensures r.nombre == (if b.nombre.Some? then Strip(b.nombre.value) else u.nombre)
    ensures r.alias == (if b.alias.Some? then Strip(b.alias.value) else u.alias)
    ensures r.aliasCi == (if b.alias.Some? then CiKey(b.alias.value) else u.aliasCi)
    ensures r.apellido == (if b.apellido.Some? then StrippedOrNone(b.apellido) else u.apellido)
    ensures r.role == b.role.GetOr(u.role) && r.status == (if b.status.Some? then b.status else u.status)
    ensures Admissible(u) && UpdateInValid(b) ==> Admissible(r)
  {
    u.(nombre := if b.nombre.Some? then Strip(b.nombre.value) else u.nombre,
       alias := if b.alias.Some? then Strip(b.alias.value) else u.alias,
       aliasCi := if b.alias.Some? then Lower(Strip(b.alias.value)) else u.aliasCi,
       apellido := if b.apellido.Some? then StrippedOrNone(b.apellido) else u.apellido,
       role := b.role.GetOr(u.role),
       status := if b.status.Some? then b.status else u.status,
       updatedAt := now)
  }

  /** The new alias key already belongs to another user, so the unique index refuses the write. */
  predicate AliasClash(users: seq<User>, id: nat, b: UpdateIn) {
    b.alias.Some? && exists j :: 0 <= j < |users| && j != id && users[j].aliasCi == CiKey(b.alias.value)
  }

  /** `update_user`'s outcome for the user at position `id`. */
  function UpdateUserOutcome(users: seq<User>, id: nat, b: UpdateIn, now: Instant): (r: Result<User, UserError>)
    ensures r == Err(UserNotFound) <==> id >= |users|
    ensures r == Err(AliasConflict) <==> id < |users| && AliasClash(users, id, b)
    ensures r.Ok? ==> id < |users| && r.value == UpdatedUser(users[id], b, now)
  {
    if id >= |users| then Err(UserNotFound)
    else if AliasClash(users, id, b) then Err(AliasConflict)
    else Ok(UpdatedUser(users[id], b, now))
  }

  /** An update changes only what it was given, and keeps both unique indexes. */
  lemma UpdateKeepsUnique(users: seq<User>, id: nat, b: UpdateIn, now: Instant)
    requires UniqueKeys(users)
    requires UpdateUserOutcome(users, id, b, now).Ok?
    ensures UniqueKeys(users[id := UpdateUserOutcome(users, id, b, now).value])
  {
    var all := users[id := UpdateUserOutcome(users, id, b, now).value];
    forall i, j | 0 <= i < j < |all|
      ensures all[i].aliasCi != all[j].aliasCi && all[i].emailCi != all[j].emailCi
    {
      if i == id || j == id {
        assert !AliasClash(users, id, b);
        if b.alias.Some? {
          var other := if i == id then j else i;
          assert users[other].aliasCi != CiKey(b.alias.value);
        }
      }
    }
  }

  /** An update with no fields still stamps `updatedAt`, and nothing else. */
  lemma EmptyUpdateTouchesOnlyTime(u: User, now: Instant)
    ensures UpdatedUser(u, UpdateIn(None, None, None, None, None), now) == u.(updatedAt := now)
  {
  }

  /** `change_password`'s decision: the current password must verify against the stored hash. */
  function ChangePasswordOutcome(users: seq<User>, id: nat, actual: string, newHash: string, now: Instant,
                                 verify: (string, string) -> bool): (r: Result<User, UserError>)
    ensures r == Err(UserNotFound) <==> id >= |users|
    ensures r == Err(WrongPassword) <==> id < |users| && !verify(actual, users[id].passwordHash)
    ensures r.Ok? ==> id < |users| && r.value == users[id].(passwordHash := newHash, updatedAt := now)
  {
    if id >= |users| then Err(UserNotFound)
    else if !verify(actual, users[id].passwordHash) then Err(WrongPassword)
    else Ok(users[id].(passwordHash := newHash, updatedAt := now))
  }

  /** A password change touches neither unique key, so it keeps both indexes. */
  lemma ChangePasswordKeepsUnique(users: seq<User>, id: nat, actual: string, newHash: string, now: Instant,
                                  verify: (string, string) -> bool)
    requires UniqueKeys(users)
    requires ChangePasswordOutcome(users, id, actual, newHash, now, verify).Ok?
    ensures UniqueKeys(users[id := ChangePasswordOutcome(users, id, actual, newHash, now, verify).value])
  {
    var all := users[id := ChangePasswordOutcome(users, id, actual, newHash, now, verify).value];
    forall i, j | 0 <= i < j < |all|
      ensures all[i].aliasCi != all[j].aliasCi && all[i].emailCi != all[j].emailCi
    {
      assert all[i].aliasCi == users[i].aliasCi && all[j].aliasCi == users[j].aliasCi;
    }
  }

  /** The users collection; a user's id is its position. */
  class UserStore {
    var users: seq<User>

    ghost predicate Valid()
      reads this
    {
      UniqueKeys(users) && forall i :: 0 <= i < |users| ==> Admissible(users[i])
    }

    constructor ()
      ensures Valid() && users == []
    {
      users := [];
    }

    /** `create_user`: inserts the new user only when neither key is taken. */
    method CreateUser(p: CreateIn, passwordHash: string, now: Instant) returns (r: Result<User, UserError>)
      requires Valid() && CreateInValid(p)
      modifies this
      ensures Valid()
      ensures r == CreateUserOutcome(old(users), p, passwordHash, now)
      ensures users == if r.Ok? then old(users) + [r.value] else old(users)
    {
      var aliasClean := Strip(p.alias);
      var emailClean := Strip(p.email);
      if FindByAlias(users, aliasClean).Some? {
        return Err(AliasExists);
      }
      if EmailTaken(users, emailClean) {
        return Err(EmailExists);
      }
      var u := NewUser(p, passwordHash, now);
      CreateKeepsUnique(users, p, passwordHash, now);
      users := users + [u];
      r := Ok(u);
    }

    /** `update_user`: builds the `$set` from the supplied fields and writes it. */
    method UpdateUser(id: nat, b: UpdateIn, now: Instant) returns (r: Result<User, UserError>)
      requires Valid() && UpdateInValid(b)
      modifies this
      ensures Valid()
      ensures r == UpdateUserOutcome(old(users), id, b, now)
      ensures users == if r.Ok? then old(users)[id := r.value] else old(users)
    {
      if id >= |users| {
        return Err(UserNotFound);
      }
      var u := users[id];
      if b.nombre.Some? {
        u := u.(nombre := Strip(b.nombre.value));
      }
      if b.alias.Some? {
        u := u.(alias := Strip(b.alias.value), aliasCi := Lower(Strip(b.alias.value)));
      }
      if b.apellido.Some? {
        u := u.(apellido := StrippedOrNone(b.apellido));
      }
      if b.role.Some? {
        u := u.(role := b.role.value);
      }
      if b.status.Some? {
        u := u.(status := b.status);
      }
      u := u.(updatedAt := now);
      if AliasClash(users, id, b) {
        return Err(AliasConflict);
      }
      assert u == UpdatedUser(users[id], b, now);
      UpdateKeepsUnique(users, id, b, now);
      users := users[id := u];
      r := Ok(u);
    }

    /** `change_password`: a wrong current password leaves the stored hash as it was. */
    method ChangePassword(id: nat, actual: string, newHash: string, now: Instant, verify: (string, string) -> bool)
      returns (r: Result<User, UserError>)
      requires Valid()
      modifies this
      ensures Valid()
      ensures r == ChangePasswordOutcome(old(users), id, actual, newHash, now, verify)
      ensures users == if r.Ok? then old(users)[id := r.value] else old(users)
    {
      if id >= |users| {
        return Err(UserNotFound);
      }
      if !verify(actual, users[id].passwordHash) {
        return Err(WrongPassword);
      }
      ChangePasswordKeepsUnique(users, id, actual, newHash, now, verify);
      var u := users[id].(passwordHash := newHash, updatedAt := now);
      users := users[id := u];
      r := Ok(u);
    }
  }
}
