/**
 * POST /api/login and POST /api/register over the users and profiles tables.
 * bcrypt and JWT are not modelled: the hash that bcrypt.hash produced on this call, bcrypt.compare
 * and the token signer are parameters.
 */
module Accounts {
  import opened Options
  import opened Text
  import opened ServerTables
  import Seqs

  /** The payload of a token: `{ id, email, role }`. */
  datatype Claims = Claims(id: string, email: Option<string>, role: Option<string>)

  /** A row of public.profiles; `password` holds a bcrypt hash, or a legacy plaintext, or NULL. */
  datatype Profile = Profile(id: string, fullName: Option<string>, email: string, role: Option<string>,
                             password: Option<string>)

  /** A row of public.users. */
  datatype UserRow = UserRow(id: string, email: string, fullName: Option<string>, role: string)

  /** The user as returned to the client: the profile without its password. */
  datatype PublicUser = PublicUser(id: string, fullName: Option<string>, email: string, role: Option<string>)

  function Public(p: Profile): PublicUser {
    PublicUser(p.id, p.fullName, p.email, p.role)
  }

  const AllowedRoles: seq<string> := ["admin", "engineer", "manager", "operator"]
  const InvalidCredentials := "Invalid email or password"

  /** A stored password is treated as a bcrypt hash iff it is non-empty and carries a bcrypt prefix. */
  predicate IsBcryptHash(stored: Option<string>) {
    Truthy(stored)
    && (StartsWith(stored.value, "$2a$") || StartsWith(stored.value, "$2b$") || StartsWith(stored.value, "$2y$"))
  }

  /** `SELECT ... WHERE email = $1 LIMIT 1`: the first profile with exactly this email. */
  function FindByEmail(profiles: seq<Profile>, email: string): (r: Option<nat>)
    ensures r.Some? ==> r.value < |profiles| && profiles[r.value].email == email
    ensures r.Some? ==> forall j :: 0 <= j < r.value ==> profiles[j].email != email
    ensures r.None? <==> forall j :: 0 <= j < |profiles| ==> profiles[j].email != email
  {
    if profiles == [] then None
    else if profiles[0].email == email then Some(0)
    else
      var rest := FindByEmail(profiles[1..], email);
      if rest.Some? then Some(rest.value + 1) else None
  }

  /** The password check: bcrypt for a hash, exact equality for anything else. */
  predicate PasswordMatches(stored: Option<string>, password: string, compare: (string, string) -> bool) {
    if IsBcryptHash(stored) then compare(password, stored.value) else stored == Some(password)
  }

  datatype LoginOutcome =
    | LoginBadRequest(message: string)
    | LoginUnauthorized(message: string)
    | LoggedIn(token: string, user: PublicUser)
  {
    function Status(): int {
      match this
      case LoginBadRequest(_) => 400
      case LoginUnauthorized(_) => 401
      case LoggedIn(_, _) => 200
    }
  }

  /** `UPDATE public.profiles SET password = $hash WHERE id = $id` */
  function SetPassword(profiles: seq<Profile>, id: string, hash: string): seq<Profile> {
    Seqs.MapWhere(profiles, (p: Profile) => p.id == id, (p: Profile) => p.(password := Some(hash)))
  }

  /**
   * The login handler. `freshHash` is what bcrypt.hash returns for the submitted password on this
   * call; it is stored only when a legacy plaintext password matched.
   */
  function LoginStep(profiles: seq<Profile>, email: Option<string>, password: Option<string>,
                     compare: (string, string) -> bool, freshHash: string, sign: Claims -> string)
    : (LoginOutcome, seq<Profile>)
  {
    if !Truthy(email) || !Truthy(password) then (LoginBadRequest("Email and password are required"), profiles)
    else
      var found := FindByEmail(profiles, email.value);
      if found.None? then (LoginUnauthorized(InvalidCredentials), profiles)
      else
        var user := profiles[found.value];
        if !PasswordMatches(user.password, password.value, compare) then
          (LoginUnauthorized(InvalidCredentials), profiles)
        else
          var migrated := if IsBcryptHash(user.password) then profiles
                          else SetPassword(profiles, user.id, freshHash);
          (LoggedIn(sign(Claims(user.id, Some(user.email), user.role)), Public(user)), migrated)
  }

  datatype RegisterOutcome =
    | RegisterRejected(status: int, error: string)
    | Registered(token: string, user: PublicUser)

  /**
   * The register handler. `newId` is the id the database assigns to the new users row and
   * `freshHash` what bcrypt.hash returns for the password. `full_name` goes into both INSERTs
   * unconverted: `null` is stored as NULL, while a body without it passes `undefined`, which the
   * client refuses inside the transaction, so nothing is written and the catch answers 500.
   */
  function RegisterStep(users: seq<UserRow>, profiles: seq<Profile>, email: Option<string>,
                        password: Option<string>, role: Option<string>, fullName: Json<string>,
                        newId: string, freshHash: string, sign: Claims -> string)
    : (RegisterOutcome, seq<UserRow>, seq<Profile>)
  {
    if !Truthy(email) || !Truthy(password) || !Truthy(role) then
      (RegisterRejected(400, "Email, password, and role are required"), users, profiles)
    else if Lower(role.value) !in AllowedRoles then (RegisterRejected(400, "Invalid role"), users, profiles)
    else if |password.value| < 6 then (RegisterRejected(400, "Weak password"), users, profiles)
    else if FindByEmail(profiles, email.value).Some? then
      (RegisterRejected(409, "Email already registered"), users, profiles)
    else if fullName.Absent? then (RegisterRejected(500, UndefinedValue), users, profiles)
    else
      var roleLower := Lower(role.value);
      var profile := Profile(newId, fullName.AsOption(), email.value, Some(roleLower), Some(freshHash));
      (Registered(sign(Claims(newId, Some(email.value), Some(roleLower))), Public(profile)),
       users + [UserRow(newId, email.value, fullName.AsOption(), roleLower)],
       profiles + [profile])
  }

  /** The two account tables, written by login (password migration) and by register. */
  class AccountStore {
    var users: seq<UserRow>
    var profiles: seq<Profile>

    constructor (initialUsers: seq<UserRow>, initialProfiles: seq<Profile>)
      ensures users == initialUsers && profiles == initialProfiles
    {
      users := initialUsers;
      profiles := initialProfiles;
    }

    method Login(email: Option<string>, password: Option<string>, compare: (string, string) -> bool,
                 freshHash: string, sign: Claims -> string) returns (outcome: LoginOutcome)
      modifies this
      ensures (outcome, profiles) == LoginStep(old(profiles), email, password, compare, freshHash, sign)
      ensures users == old(users)
    {
      if !Truthy(email) || !Truthy(password) {
        return LoginBadRequest("Email and password are required");
      }
      var found := FindByEmail(profiles, email.value);
      if found.None? {
        return LoginUnauthorized(InvalidCredentials);
      }
      var user := profiles[found.value];
      var valid: bool;
      if IsBcryptHash(user.password) {
        valid := compare(password.value, user.password.value);
      } else {
        valid := user.password == Some(password.value);
        if valid {
          profiles := SetPassword(profiles, user.id, freshHash);
        }
      }
      if !valid {
        return LoginUnauthorized(InvalidCredentials);
      }
      return LoggedIn(sign(Claims(user.id, Some(user.email), user.role)), Public(user));
    }

    method Register(email: Option<string>, password: Option<string>, role: Option<string>,
                    fullName: Json<string>, newId: string, freshHash: string, sign: Claims -> string)
      returns (outcome: RegisterOutcome)
      modifies this
      ensures (outcome, users, profiles)
        == RegisterStep(old(users), old(profiles), email, password, role, fullName, newId, freshHash, sign)
    {
      if !Truthy(email) || !Truthy(password) || !Truthy(role) {
        return RegisterRejected(400, "Email, password, and role are required");
      }
      var roleLower := Lower(role.value);
      if roleLower !in AllowedRoles {
        return RegisterRejected(400, "Invalid role");
      }
      if |password.value| < 6 {
        return RegisterRejected(400, "Weak password");
      }
      // sql.begin
      if FindByEmail(profiles, email.value).Some? {
        return RegisterRejected(409, "Email already registered");
      }
      // the users INSERT: the client refuses an undefined `full_name` and the transaction rolls back
      if fullName.Absent? {
        return RegisterRejected(500, UndefinedValue);
      }
      users := users + [UserRow(newId, email.value, fullName.AsOption(), roleLower)];
      var profile := Profile(newId, fullName.AsOption(), email.value, Some(roleLower), Some(freshHash));
      profiles := profiles + [profile];
      return Registered(sign(Claims(newId, Some(email.value), Some(roleLower))), Public(profile));
    }
  }

  /** Which prefixes count as a hash. */
  lemma BcryptPrefixes()
    ensures IsBcryptHash(Some("$2b$10$abc"))
    ensures IsBcryptHash(Some("$2y$"))
    ensures !IsBcryptHash(Some("$2x$10$abc"))
    ensures !IsBcryptHash(Some("secret"))
    ensures !IsBcryptHash(Some("")) && !IsBcryptHash(None)
  {
    assert "$2b$10$abc"[..4] == "$2b$";
    assert "$2x$10$abc"[..4][2] == 'x';
    assert "secret"[..4][0] == 's';
  }

  /**
   * An unknown email and a wrong password are indistinguishable to the client: the same 401 with
   * the same message, and neither touches the stored passwords.
   */
  lemma LoginFailuresAreUniform(profiles: seq<Profile>, email: string, password: string,
                                compare: (string, string) -> bool, freshHash: string, sign: Claims -> string)
    requires email != "" && password != ""
    requires var found := FindByEmail(profiles, email);
      found.None? || !PasswordMatches(profiles[found.value].password, password, compare)
    ensures LoginStep(profiles, Some(email), Some(password), compare, freshHash, sign)
      == (LoginUnauthorized("Invalid email or password"), profiles)
  {
  }

  /** A login succeeds exactly when the first profile with the email accepts the password. */
  lemma LoginSucceedsExactly(profiles: seq<Profile>, email: Option<string>, password: Option<string>,
                             compare: (string, string) -> bool, freshHash: string, sign: Claims -> string)
    ensures var (o, _) := LoginStep(profiles, email, password, compare, freshHash, sign);
      o.LoggedIn? <==>
        Truthy(email) && Truthy(password)
        && (exists i :: 0 <= i < |profiles| && profiles[i].email == email.value
                        && PasswordMatches(profiles[i].password, password.value, compare)
                        && (forall j :: 0 <= j < i ==> profiles[j].email != email.value))
    ensures var (o, _) := LoginStep(profiles, email, password, compare, freshHash, sign);
      o.LoggedIn? ==> o.user.email == email.value
  {
    var (o, _) := LoginStep(profiles, email, password, compare, freshHash, sign);
    if Truthy(email) && Truthy(password) {
      var found := FindByEmail(profiles, email.value);
      if found.Some? {
        if exists i :: 0 <= i < |profiles| && profiles[i].email == email.value
                       && PasswordMatches(profiles[i].password, password.value, compare)
                       && (forall j :: 0 <= j < i ==> profiles[j].email != email.value) {
          var i :| 0 <= i < |profiles| && profiles[i].email == email.value
                   && PasswordMatches(profiles[i].password, password.value, compare)
                   && (forall j :: 0 <= j < i ==> profiles[j].email != email.value);
          assert i == found.value;
        }
        if o.LoggedIn? {
          assert profiles[found.value].email == email.value;
        }
      }
    }
  }

  /** A login against a hash never writes the table. */
  lemma HashedLoginChangesNothing(profiles: seq<Profile>, email: Option<string>, password: Option<string>,
                                  compare: (string, string) -> bool, freshHash: string, sign: Claims -> string)
    requires forall i :: 0 <= i < |profiles| ==> IsBcryptHash(profiles[i].password)
    ensures LoginStep(profiles, email, password, compare, freshHash, sign).1 == profiles
  {
  }

  /**
   * A matching plaintext password is replaced by its hash on that profile only, after which the
   * same credentials log in again through bcrypt and nothing more changes.
   */
  lemma {:induction false} PlaintextLoginMigrates(profiles: seq<Profile>, i: nat, password: string,
                                                  compare: (string, string) -> bool, freshHash: string,
                                                  sign: Claims -> string)
    requires i < |profiles| && password != "" && profiles[i].email != ""
    requires FindByEmail(profiles, profiles[i].email) == Some(i)
    requires profiles[i].password == Some(password) && !IsBcryptHash(Some(password))
    requires forall j :: 0 <= j < |profiles| && j != i ==> profiles[j].id != profiles[i].id
    requires IsBcryptHash(Some(freshHash)) && compare(password, freshHash)
    ensures var (o, after) := LoginStep(profiles, Some(profiles[i].email), Some(password), compare, freshHash, sign);
      && o.LoggedIn?
      && |after| == |profiles|
      && after[i] == profiles[i].(password := Some(freshHash))
      && (forall j :: 0 <= j < |profiles| && j != i ==> after[j] == profiles[j])
      && LoginStep(after, Some(profiles[i].email), Some(password), compare, freshHash, sign) == (o, after)
  {
    var email := profiles[i].email;
    var (o, after) := LoginStep(profiles, Some(email), Some(password), compare, freshHash, sign);
    assert after == SetPassword(profiles, profiles[i].id, freshHash);
    assert forall j :: 0 <= j < |profiles| ==> after[j].email == profiles[j].email;
    assert after[i].email == email;
    assert FindByEmail(after, email) == Some(i);
  }

  /** A duplicate email is refused with 409 and neither table changes. */
  lemma RegisterRefusesDuplicate(users: seq<UserRow>, profiles: seq<Profile>, email: string, password: string,
                                 role: string, fullName: Json<string>, newId: string, freshHash: string,
                                 sign: Claims -> string)
    requires Lower(role) in AllowedRoles && |password| >= 6 && email != ""
    requires exists i :: 0 <= i < |profiles| && profiles[i].email == email
    ensures RegisterStep(users, profiles, Some(email), Some(password), Some(role), fullName, newId, freshHash, sign)
      == (RegisterRejected(409, "Email already registered"), users, profiles)
  {
  }

  /** The exact conditions for a new account; a refusal changes neither table. */
  lemma RegisterSucceedsExactly(users: seq<UserRow>, profiles: seq<Profile>, email: Option<string>,
                                password: Option<string>, role: Option<string>, fullName: Json<string>,
                                newId: string, freshHash: string, sign: Claims -> string)
    ensures RegisterStep(users, profiles, email, password, role, fullName, newId, freshHash, sign).0.Registered? <==>
      && Truthy(email) && Truthy(password) && Truthy(role)
      && Lower(role.value) in {"admin", "engineer", "manager", "operator"}
      && |password.value| >= 6
      && (forall i :: 0 <= i < |profiles| ==> profiles[i].email != email.value)
      && !fullName.Absent?
    ensures var (o, users', profiles') := RegisterStep(users, profiles, email, password, role, fullName, newId, freshHash, sign);
      o.RegisterRejected? ==> users' == users && profiles' == profiles && o.status in {400, 409, 500}
  {
  }

  /**
   * A body that passes every check but has no `full_name` is refused with 500 and the client's
   * undefined-value error, and neither table changes; a `null` one is stored as NULL.
   */
  lemma MissingFullNameIsRefused(users: seq<UserRow>, profiles: seq<Profile>, email: string, password: string,
                                 role: string, newId: string, freshHash: string, sign: Claims -> string)
    requires Lower(role) in AllowedRoles && |password| >= 6 && email != ""
    requires forall i :: 0 <= i < |profiles| ==> profiles[i].email != email
    ensures RegisterStep(users, profiles, Some(email), Some(password), Some(role), Absent, newId, freshHash, sign)
      == (RegisterRejected(500, "Undefined values are not allowed"), users, profiles)
    ensures var (o, _, profiles') := RegisterStep(users, profiles, Some(email), Some(password), Some(role), Null, newId, freshHash, sign);
      o.Registered? && o.user.fullName.None? && profiles'[|profiles|].fullName.None?
  {
    assert FindByEmail(profiles, email).None?;
  }

  /** A successful registration appends one row to each table, with the fresh hash and the lower-cased role. */
  lemma RegisterAppendsAccount(users: seq<UserRow>, profiles: seq<Profile>, email: Option<string>,
                               password: Option<string>, role: Option<string>, fullName: Json<string>,
                               newId: string, freshHash: string, sign: Claims -> string)
    ensures var (o, users', profiles') := RegisterStep(users, profiles, email, password, role, fullName, newId, freshHash, sign);
      o.Registered? ==>
        && |users'| == |users| + 1 && users'[..|users|] == users
        && |profiles'| == |profiles| + 1 && profiles'[..|profiles|] == profiles
        && profiles'[|profiles|].password == Some(freshHash)
        && profiles'[|profiles|].role == Some(Lower(role.value))
        && IsLowerCase(profiles'[|profiles|].role.value)
  {
    var (o, users', profiles') := RegisterStep(users, profiles, email, password, role, fullName, newId, freshHash, sign);
    if o.Registered? {
      LowerFixesLowerCase(role.value);
      assert users'[..|users|] == users;
      assert profiles'[..|profiles|] == profiles;
    }
  }

  /** Registering and then logging in with the same credentials succeeds, with the stored lower-case role. */
  lemma {:induction false} RegisterThenLogin(users: seq<UserRow>, profiles: seq<Profile>, email: string,
                                             password: string, role: string, fullName: Json<string>,
                                             newId: string, freshHash: string, compare: (string, string) -> bool,
                                             loginHash: string, sign: Claims -> string)
    requires IsBcryptHash(Some(freshHash)) && compare(password, freshHash)
    requires RegisterStep(users, profiles, Some(email), Some(password), Some(role), fullName, newId, freshHash, sign).0.Registered?
    ensures var (_, _, profiles') := RegisterStep(users, profiles, Some(email), Some(password), Some(role), fullName, newId, freshHash, sign);
      var (o, profiles'') := LoginStep(profiles', Some(email), Some(password), compare, loginHash, sign);
      && o.LoggedIn?
      && o.user.id == newId
      && o.user.role == Some(Lower(role))
      && profiles'' == profiles'
  {
    var (_, _, profiles') := RegisterStep(users, profiles, Some(email), Some(password), Some(role), fullName, newId, freshHash, sign);
    assert profiles'[|profiles|].email == email;
    var f := FindByEmail(profiles', email);
    assert forall j :: 0 <= j < |profiles| ==> profiles'[j] == profiles[j];
    assert f == Some(|profiles|);
  }

  /** The minimum password length is six characters. */
  lemma PasswordLengthBoundary(users: seq<UserRow>, profiles: seq<Profile>, newId: string, freshHash: string,
                               sign: Claims -> string)
    requires forall i :: 0 <= i < |profiles| ==> profiles[i].email != "a@b"
    ensures RegisterStep(users, profiles, Some("a@b"), Some("12345"), Some("Admin"), Present("Ann"), newId, freshHash, sign).0
      == RegisterRejected(400, "Weak password")
    ensures RegisterStep(users, profiles, Some("a@b"), Some("123456"), Some("Admin"), Present("Ann"), newId, freshHash, sign).0.Registered?
  {
    assert Lower("Admin") == "admin" && "admin" in AllowedRoles;
    assert Truthy(Some("12345")) && |"12345"| == 5 && |"123456"| == 6;
    assert FindByEmail(profiles, "a@b").None?;
  }
}
