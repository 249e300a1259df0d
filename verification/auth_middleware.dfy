/**
 * The Express middleware in front of the protected routes: `authMiddleware` turns the Authorization
 * header into `req.user` or answers 401/500, `optionalAuthMiddleware` does the same without ever
 * answering, and `requireRole` admits a user whose role is in a fixed list.
 * Token verification is a parameter; the profile lookup reads the profiles table.
 */
module AuthMiddleware {
  import opened Options
  import opened Text
  import opened Accounts
  import opened ServerTables

  /** What verifyToken does with a token: the decoded claims, or the message of the error it throws. */
  datatype VerifyResult = Verified(claims: Claims) | VerifyFailed(message: string)

  /** `req.user` */
  datatype AuthUser = AuthUser(id: string, email: string, role: Option<string>, profile: PublicUser)

  /** Either the middleware answers, or it calls `next()` with `req.user` and the X-Authenticated-User header. */
  datatype Decision =
    | Reject(status: int, error: string, message: string)
    | Next(user: AuthUser, authenticatedUserHeader: string)

  const BearerPrefix := "Bearer "

  const NoTokenMessage := "No valid authorization token provided. Please include: Authorization: Bearer <token>"
  const ExpiredMessage := "Your session has expired. Please log in again."
  const LookupFailedMessage := "Failed to verify user. Please try again."
  const UnknownUserMessage := "User account does not exist. Please contact administrator."

  /** The token of a well-formed header: `header.replace('Bearer ', '').trim()`, or None without the prefix. */
  function BearerToken(header: Option<string>): (r: Option<string>)
    ensures r.Some? <==> header.Some? && StartsWith(header.value, "Bearer ")
    ensures r.Some? ==> r.value == Trim(header.value[7..])
  {
    if header.None? || !StartsWith(header.value, BearerPrefix) then None
    else Some(Trim(header.value[|BearerPrefix|..]))
  }

  /** `SELECT ... FROM public.profiles WHERE id = $1 LIMIT 1` */
  function FindById(profiles: seq<Profile>, id: string): (r: Option<Profile>)
    ensures r.Some? ==> r.value in profiles && r.value.id == id
    ensures r.None? <==> forall p :: p in profiles ==> p.id != id
  {
    if profiles == [] then None
    else if profiles[0].id == id then Some(profiles[0])
    else FindById(profiles[1..], id)
  }

  /** `req.user` for verified claims and the profile found for them: the role always comes from the profile. */
  function UserFor(claims: Claims, profile: Profile): AuthUser {
    AuthUser(claims.id, OrElse(claims.email, profile.email), profile.role, Public(profile))
  }

  /** `authMiddleware`; `lookupFails` stands for the profile query throwing. */
  function Authenticate(header: Option<string>, verify: string -> VerifyResult, profiles: seq<Profile>,
                        lookupFails: bool): (d: Decision)
    ensures d.Next? <==>
      && BearerToken(header).Some? && BearerToken(header).value != ""
      && verify(BearerToken(header).value).Verified?
      && !lookupFails
      && FindById(profiles, verify(BearerToken(header).value).claims.id).Some?
    ensures d.Next? ==>
      var claims := verify(BearerToken(header).value).claims;
      var profile := FindById(profiles, claims.id).value;
      && d.user.id == claims.id && d.authenticatedUserHeader == claims.id
      && d.user.role == profile.role
      && d.user.email == (if Truthy(claims.email) then claims.email.value else profile.email)
    ensures d.Reject? ==> d.status == 401 || (d.status == 500 && lookupFails)
  {
    var token := BearerToken(header);
    if token.None? then
      Reject(401, "Authentication required", NoTokenMessage)
    else if token.value == "" then Reject(401, "Authentication required", "Token is missing")
    else
      match verify(token.value)
      case VerifyFailed(message) =>
        Reject(401, "Invalid or expired token", OrElse(Some(message), ExpiredMessage))
      case Verified(claims) =>
        if lookupFails then Reject(500, "Database error", LookupFailedMessage)
        else
          var found := FindById(profiles, claims.id);
          if found.None? then
            Reject(401, "User not found", UnknownUserMessage)
          else Next(UserFor(claims, found.value), claims.id)
  }

  /** What `optionalAuthMiddleware` leaves on the request before it calls `next()`, which it always does. */
  datatype OptionalResult = OptionalResult(isAuthenticated: bool, user: Option<AuthUser>)

  /** `optionalAuthMiddleware` */
  function OptionalAuthenticate(header: Option<string>, verify: string -> VerifyResult, profiles: seq<Profile>,
                                lookupFails: bool): (r: OptionalResult)
    ensures r.isAuthenticated <==> r.user.Some?
  {
    var anonymous := OptionalResult(false, None);
    var token := BearerToken(header);
    if token.None? || token.value == "" then anonymous
    else
      match verify(token.value)
      case VerifyFailed(_) => anonymous
      case Verified(claims) =>
        if lookupFails then anonymous
        else
          var found := FindById(profiles, claims.id);
          if found.None? then anonymous else OptionalResult(true, Some(UserFor(claims, found.value)))
  }

  /** The optional variant authenticates exactly when the required one would, with the same user. */
  lemma OptionalAgreesWithRequired(header: Option<string>, verify: string -> VerifyResult, profiles: seq<Profile>,
                                   lookupFails: bool)
    ensures var d := Authenticate(header, verify, profiles, lookupFails);
      OptionalAuthenticate(header, verify, profiles, lookupFails)
        == if d.Next? then OptionalResult(true, Some(d.user)) else OptionalResult(false, None)
  {
  }

  /** Two verifications that decode the same token to claims differing at most in role. */
  predicate SameButRole(a: VerifyResult, b: VerifyResult) {
    match a
    case VerifyFailed(m) => b == VerifyFailed(m)
    case Verified(c) => b.Verified? && b.claims.(role := c.role) == c
  }

  /** The role inside the token is never used: only the database decides the role. */
  lemma TokenRoleIsIgnored(header: Option<string>, verify1: string -> VerifyResult, verify2: string -> VerifyResult,
                           profiles: seq<Profile>, lookupFails: bool)
    requires forall t :: SameButRole(verify1(t), verify2(t))
    ensures Authenticate(header, verify1, profiles, lookupFails) == Authenticate(header, verify2, profiles, lookupFails)
    ensures OptionalAuthenticate(header, verify1, profiles, lookupFails)
         == OptionalAuthenticate(header, verify2, profiles, lookupFails)
  {
    var token := BearerToken(header);
    if token.Some? && token.value != "" {
      assert SameButRole(verify1(token.value), verify2(token.value));
    }
  }

  /** A header without the exact, case-sensitive `Bearer ` prefix, or with nothing after it, is refused before verification. */
  lemma MalformedHeadersAreRefused(verify: string -> VerifyResult, profiles: seq<Profile>, lookupFails: bool)
    ensures var d := Authenticate(None, verify, profiles, lookupFails); d.Reject? && d.status == 401
    ensures var d := Authenticate(Some("bearer abc"), verify, profiles, lookupFails); d.Reject? && d.status == 401
    ensures Authenticate(Some("Bearer    "), verify, profiles, lookupFails)
         == Reject(401, "Authentication required", "Token is missing")
  {
    LowerCasePrefixIsNotBearer();
    BlankTokenIsEmpty();
  }

  lemma LowerCasePrefixIsNotBearer()
    ensures BearerToken(Some("bearer abc")) == None
  {
    assert "bearer abc"[0] != BearerPrefix[0];
  }

  lemma BlankTokenIsEmpty()
    ensures BearerToken(Some("Bearer    ")) == Some("")
  {
    var h := "Bearer    ";
    assert h[..7] == BearerPrefix;
    assert h[7..] == "   ";
    assert AllTrimmable("   ");
  }

  /** The answer of `requireRole`: refuse with a status, or call `next()`. */
  datatype Gate = Deny(status: int, error: string, message: string) | Pass

  /** `requireRole(allowedRoles)`: the exact, case-sensitive membership of `req.user.role` in the list. */
  function RequireRole(user: Option<AuthUser>, allowedRoles: seq<string>): (g: Gate)
    ensures g.Pass? <==> user.Some? && Truthy(user.value.role) && user.value.role.value in allowedRoles
    ensures g.Deny? ==> (g.status == 401 <==> user.None?)
    ensures g.Deny? ==> g.status in {401, 403}
  {
    if user.None? then Deny(401, "Authentication required", "Please use authMiddleware before requireRole")
    else if !Truthy(user.value.role) then Deny(403, "Access denied", "User role not found")
    else if user.value.role.value !in allowedRoles then
      Deny(403, "Access denied", "This endpoint requires one of the following roles: " + Join(allowedRoles, ", "))
    else Pass
  }

  /** `requireAdmin = requireRole(['ADMIN'])`, as written. */
  function RequireAdmin(user: Option<AuthUser>): (g: Gate)
    ensures g.Pass? <==> user.Some? && user.value.role == Some("ADMIN")
  {
    RequireRole(user, ["ADMIN"])
  }

  /** `requireManager = requireRole(['ADMIN', 'MANAGER'])`, as written. */
  function RequireManager(user: Option<AuthUser>): (g: Gate)
    ensures g.Pass? <==> user.Some? && user.value.role in {Some("ADMIN"), Some("MANAGER")}
  {
    RequireRole(user, ["ADMIN", "MANAGER"])
  }

  /**
   * The written gates refuse every role that registration can store: those are lower-case, while
   * the gates list upper-case names. An authenticated administrator gets 403.
   */
  lemma WrittenGatesRefuseStoredRoles(user: AuthUser)
    requires user.role.Some? && user.role.value != "" && IsLowerCase(user.role.value)
    ensures RequireAdmin(Some(user))
      == Deny(403, "Access denied", "This endpoint requires one of the following roles: ADMIN")
    ensures RequireManager(Some(user)).Deny? && RequireManager(Some(user)).status == 403
  {
    assert IsUpperAscii("ADMIN"[0]) && IsUpperAscii("MANAGER"[0]);
  }

  /** The administrator produced by registration and login is refused by `requireAdmin`. */
  lemma RegisteredAdminIsRefused(claims: Claims, profile: Profile)
    requires profile.role == Some(Lower("Admin"))
    ensures RequireAdmin(Some(UserFor(claims, profile))).Deny?
    ensures RequireAdminIntended(Some(UserFor(claims, profile))).Pass?
  {
    assert Lower("Admin") == "admin";
  }

  /** The gate the routes evidently intend: the lower-case role names the database stores. */
  function RequireAdminIntended(user: Option<AuthUser>): (g: Gate)
    ensures g.Pass? <==> user.Some? && user.value.role == Some("admin")
  {
    RequireRole(user, ["admin"])
  }

  function RequireManagerIntended(user: Option<AuthUser>): (g: Gate)
    ensures g.Pass? <==> user.Some? && user.value.role in {Some("admin"), Some("manager")}
  {
    RequireRole(user, ["admin", "manager"])
  }

  /** For the four roles registration stores, the intended gates admit exactly admin, and admin or manager. */
  lemma IntendedGatesOnStoredRoles(user: AuthUser)
    requires user.role.Some? && user.role.value in AllowedRoles
    ensures RequireAdminIntended(Some(user)).Pass? <==> user.role.value == "admin"
    ensures RequireManagerIntended(Some(user)).Pass? <==> user.role.value == "admin" || user.role.value == "manager"
    ensures RequireAdminIntended(Some(user)).Deny? ==> RequireAdminIntended(Some(user)).status == 403
  {
  }

  /**
   * The body of DELETE /api/assets/:id once a gate has answered: the gate's refusal, or the DELETE,
   * where `dbFails` says whether the statement throws, which answers 500.
   */
  function DeleteBehind(gate: Gate, table: map<RowId, AssetRow>, id: RowId, dbFails: bool)
    : (res: (int, map<RowId, AssetRow>))
    ensures gate.Deny? ==> res == (gate.status, table)
    ensures gate.Pass? && dbFails ==> res == (500, table)
    ensures gate.Pass? && !dbFails && id !in table ==> res == (404, table)
    ensures gate.Pass? && !dbFails && id in table ==> res.0 == 200 && res.1 == table - {id} && |res.1| == |table| - 1
  {
    if gate.Deny? then (gate.status, table)
    else if dbFails then (500, table)
    else if id !in table then (404, table)
    else (200, table - {id})
  }

  /** DELETE /api/assets/:id behind authMiddleware and `requireAdmin`, as written. */
  function DeleteAssetAsWritten(table: map<RowId, AssetRow>, id: RowId, user: Option<AuthUser>, dbFails: bool)
    : (res: (int, map<RowId, AssetRow>))
    ensures res.0 == 200 <==> user.Some? && user.value.role == Some("ADMIN") && !dbFails && id in table
    ensures res.0 != 200 ==> res.1 == table
  {
    DeleteBehind(RequireAdmin(user), table, id, dbFails)
  }

  /** As written, no role that registration stores can delete an asset: each gets 403 and nothing changes. */
  lemma StoredRolesCannotDelete(table: map<RowId, AssetRow>, id: RowId, user: AuthUser, dbFails: bool)
    requires user.role.Some? && user.role.value in AllowedRoles
    ensures DeleteAssetAsWritten(table, id, Some(user), dbFails) == (403, table)
  {
    assert user.role.value[0] != 'A';
  }

  /**
   * DELETE /api/assets/:id behind authMiddleware and the corrected admin gate; `dbFails` says whether
   * the DELETE statement throws, which answers 500.
   */
  function DeleteAsset(table: map<RowId, AssetRow>, id: RowId, user: Option<AuthUser>, dbFails: bool)
    : (res: (int, map<RowId, AssetRow>))
    ensures res.0 == 200 <==> RequireAdminIntended(user).Pass? && !dbFails && id in table
    ensures res.0 == 500 <==> RequireAdminIntended(user).Pass? && dbFails
    ensures res.0 == 404 <==> RequireAdminIntended(user).Pass? && !dbFails && id !in table
    ensures res.0 == 200 ==> res.1 == table - {id}
    ensures res.0 != 200 ==> res.1 == table
    ensures res.0 in {200, 401, 403, 404, 500}
  {
    DeleteBehind(RequireAdminIntended(user), table, id, dbFails)
  }

  /** With the corrected gate, a registered administrator deletes an existing asset. */
  lemma StoredAdminDeletes(table: map<RowId, AssetRow>, id: RowId, user: AuthUser)
    requires user.role == Some("admin") && id in table
    ensures DeleteAsset(table, id, Some(user), false) == (200, table - {id})
    ensures DeleteAssetAsWritten(table, id, Some(user), false) == (403, table)
  {
    StoredRolesCannotDelete(table, id, user, false);
  }
}
