/**
 * Sign-in and token refresh (services/auth/auth.service.ts). Both are guard chains that
 * give up with `success: false` at the first missing piece; a refresh re-issues the
 * refresh token only inside its last day. Signing, verifying and the key comparison
 * are oracles; each tenant's users collection is the one its system context reaches.
 */
module AuthService {
  import opened Wrappers
  import opened Enums
  import opened Common
  import opened Schema
  import opened EntityRepo
  import opened TenantRepo
  import opened Rbac
  import opened Jwt
  import UserRepo
  import TenantService

  /** `AuthInput`. */
  datatype AuthInput = AuthInput(emailId: string, apiKey: string, domain: string)

  /** `AuthPayload`: `success: false`, or the tokens and the signed-in user. */
  datatype AuthPayload = AuthFailed | AuthSucceeded(accessToken: string, refreshToken: string, user: User)

  /** One day in milliseconds: the refresh token is renewed within this time of its expiry. */
  const RenewalWindowMs: int := 24 * 60 * 60 * 1000

  /** The look-up of a user by e-mail address. */
  function ByEmail(emailId: string): UserRepo.GetUserInput
  {
    UserRepo.GetUserInput(None, Some(emailId))
  }

  /** The look-up of a user by id. */
  function ByUserId(userId: Id): UserRepo.GetUserInput
  {
    UserRepo.GetUserInput(Some(userId), None)
  }

  /** The tenant `auth` finds for the domain. */
  function DomainTenant(input: AuthInput, tenants: seq<Tenant>): Option<Tenant>
  {
    FindTenant(tenants, ByDomain(input.domain))
  }

  /** The user `auth` finds: the e-mail address in the tenant of the domain. */
  function SignInUser(input: AuthInput, tenants: seq<Tenant>, usersOf: Id -> seq<User>): Option<User>
  {
    var t := DomainTenant(input, tenants);
    if t.Some? then UserRepo.FindUser(usersOf(t.value.id), ByEmail(input.emailId)) else None
  }

  /**
   * `auth`: the tenant of the domain, which must hold an API key the supplied key
   * matches, then the user with the e-mail address in that tenant; on success an access
   * token and a refresh token for that tenant and user. Building the access token throws
   * when one of the user's roles names an inherited member of the scope map.
   */
  function Auth(input: AuthInput, tenants: seq<Tenant>, usersOf: Id -> seq<User>,
                compare: (string, string) -> bool, sign: (TokenClaims, string) -> string): (r: Result<AuthPayload>)
    ensures var t := DomainTenant(input, tenants);
      r == Ok(AuthFailed) <==>
        !(t.Some? && t.value.apiKey != "" && compare(input.apiKey, t.value.apiKey) &&
          SignInUser(input, tenants, usersOf).Some?)
    ensures var t := DomainTenant(input, tenants);
      var u := SignInUser(input, tenants, usersOf);
      r.Err? <==>
        t.Some? && t.value.apiKey != "" && compare(input.apiKey, t.value.apiKey) && u.Some? &&
        exists i :: 0 <= i < |u.value.roles| && Inherited(u.value.roles[i])
    ensures r.Err? ==> r.error == Failure(ForEachNotAFunction)
    ensures r.Ok? && r.value.AuthSucceeded? ==>
      exists i :: 0 <= i < |tenants| && tenants[i].domain == input.domain &&
        r.value.user in usersOf(tenants[i].id) && r.value.user.emailId == input.emailId &&
        AccessClaims(tenants[i], r.value.user).Ok? &&
        r.value.accessToken == sign(AccessClaims(tenants[i], r.value.user).value, AccessExpiry) &&
        r.value.refreshToken == sign(RefreshClaims(tenants[i], r.value.user), RefreshExpiry)
  {
    var tenant := FindTenant(tenants, ByDomain(input.domain));
    if tenant.None? || tenant.value.apiKey == "" then Ok(AuthFailed)
    else if !compare(input.apiKey, tenant.value.apiKey) then Ok(AuthFailed)
    else
      var system := TenantService.SystemContext(tenant.value.id, None, "");
      var user := UserRepo.FindUser(usersOf(system.tenantId), ByEmail(input.emailId));
      if user.None? then Ok(AuthFailed)
      else
        match AccessClaims(tenant.value, user.value)
        case Err(e) => Err(e)
        case Ok(claims) =>
          Ok(AuthSucceeded(sign(claims, AccessExpiry), sign(RefreshClaims(tenant.value, user.value), RefreshExpiry), user.value))
  }

  /** A domain no tenant holds, or a key that does not match, never signs in. */
  lemma AuthNeedsTenantAndKey(input: AuthInput, tenants: seq<Tenant>, usersOf: Id -> seq<User>,
                              compare: (string, string) -> bool, sign: (TokenClaims, string) -> string)
    requires input.domain == "" ||
      forall i :: 0 <= i < |tenants| && tenants[i].domain == input.domain ==> tenants[i].apiKey == "" || !compare(input.apiKey, tenants[i].apiKey)
    ensures Auth(input, tenants, usersOf, compare, sign) == Ok(AuthFailed)
  {
  }

  /**
   * Whether `refreshToken` issues a new refresh token: when the old one has no (or a
   * zero) expiry, or from one day before its expiry on. `now` is milliseconds since the
   * epoch, `exp` seconds.
   */
  function Renews(exp: Option<int>, now: int): (b: bool)
    ensures exp.None? || exp == Some(0) ==> b
    ensures exp.Some? && exp.value != 0 ==> (b <==> exp.value * 1000 - now <= RenewalWindowMs)
  {
    exp.None? || exp.value == 0 || now >= exp.value * 1000 - RenewalWindowMs
  }

  /**
   * `refreshToken`: the token must verify and be a refresh token, its tenant and user
   * must still exist; then a new access token, and either a new refresh token or the
   * presented one, as `Renews` decides. Building the access token throws when one of
   * the user's roles names an inherited member of the scope map.
   */
  function RefreshToken(token: string, now: int, verify: string -> Option<VerifiedToken>, tenants: seq<Tenant>,
                        usersOf: Id -> seq<User>, sign: (TokenClaims, string) -> string): (r: Result<AuthPayload>)
    ensures r != Ok(AuthFailed) ==> verify(token).Some? && verify(token).value.claims.accessType.Refresh?
    ensures r.Err? ==> r.error == Failure(ForEachNotAFunction)
    ensures r.Ok? && r.value.AuthSucceeded? ==>
      var claims := verify(token).value.claims;
      exists i :: 0 <= i < |tenants| && tenants[i].id == claims.tenantId &&
        r.value.user in usersOf(claims.tenantId) && r.value.user.id == claims.userId &&
        AccessClaims(tenants[i], r.value.user).Ok? &&
        r.value.accessToken == sign(AccessClaims(tenants[i], r.value.user).value, AccessExpiry) &&
        r.value.refreshToken ==
          (if Renews(verify(token).value.exp, now) then sign(RefreshClaims(tenants[i], r.value.user), RefreshExpiry) else token)
    ensures verify(token).Some? && verify(token).value.claims.accessType.Refresh? ==>
      var claims := verify(token).value.claims;
      var u := UserRepo.FindUser(usersOf(claims.tenantId), ByUserId(claims.userId));
      (r == Ok(AuthFailed) <==> !(FindTenant(tenants, ById(claims.tenantId)).Some? && u.Some?)) &&
      (r.Err? <==> FindTenant(tenants, ById(claims.tenantId)).Some? && u.Some? &&
                   exists i :: 0 <= i < |u.value.roles| && Inherited(u.value.roles[i]))
  {
    match verify(token)
    case None => Ok(AuthFailed)
    case Some(payload) =>
      if !payload.claims.accessType.Refresh? then Ok(AuthFailed)
      else
        var system := TenantService.SystemContext(payload.claims.tenantId, None, "");
        var tenant := FindTenant(tenants, ById(payload.claims.tenantId));
        if tenant.None? then Ok(AuthFailed)
        else
          var user := UserRepo.FindUser(usersOf(system.tenantId), ByUserId(payload.claims.userId));
          if user.None? then Ok(AuthFailed)
          else
            match AccessClaims(tenant.value, user.value)
            case Err(e) => Err(e)
            case Ok(claims) =>
              var refresh := if Renews(payload.exp, now) then sign(RefreshClaims(tenant.value, user.value), RefreshExpiry) else token;
              Ok(AuthSucceeded(sign(claims, AccessExpiry), refresh, user.value))
  }

  /** An access token, a public token or an unverifiable one never refreshes. */
  lemma OnlyRefreshTokensRefresh(token: string, now: int, verify: string -> Option<VerifiedToken>, tenants: seq<Tenant>,
                                 usersOf: Id -> seq<User>, sign: (TokenClaims, string) -> string)
    requires verify(token).None? || !verify(token).value.claims.accessType.Refresh?
    ensures RefreshToken(token, now, verify, tenants, usersOf, sign) == Ok(AuthFailed)
  {
  }

  /**
   * The renewal window: with an expiry set, the token is renewed exactly from one day
   * before it on, and once renewed it stays renewable.
   */
  lemma RenewalWindow(exp: int, now: int, later: int)
    requires exp != 0
    ensures Renews(Some(exp), now) <==> now >= exp * 1000 - 86400000
    ensures Renews(Some(exp), now) && now <= later ==> Renews(Some(exp), later)
  {
  }

  /**
   * A refresh token signed with a seven-day lifetime at second `issued` is kept for the
   * first six days and renewed from then on.
   */
  lemma SevenDayTokenRenewedOnLastDay(issued: int, now: int)
    requires issued > 0
    ensures Renews(Some(issued + 7 * 24 * 60 * 60), now) <==> now >= (issued + 6 * 24 * 60 * 60) * 1000
  {
  }

  /**
   * A tenant just created can be signed into at once: its domain and its plain key, with
   * the admin e-mail address, find the new tenant and its admin user, provided the
   * stored hash accepts the plain key and the admin is the first user with that address.
   */
  lemma NewTenantAdminCanSignIn(before: seq<Tenant>, input: TenantService.CreateTenantInput, newTenantId: Id,
                                generatedKey: string, encrypt: string -> string, users: seq<User>, newUserId: Id,
                                freshId: Id, requestId: string, usersOf: Id -> seq<User>,
                                compare: (string, string) -> bool, sign: (TokenClaims, string) -> string)
    requires input.domain != "" && !TenantService.DomainIsTaken(before, input.domain)
    requires input.adminEmail != ""
    requires var plain := TenantService.PlainKey(input, generatedKey);
      encrypt(plain) != "" && compare(plain, encrypt(plain))
    requires forall i :: 0 <= i < |users| ==> users[i].emailId != input.adminEmail
    requires usersOf(newTenantId) == users +
      [UserRepo.NewUser(TenantService.AdminUserInput(input), TenantService.SystemContext(newTenantId, None, requestId), newUserId, freshId)]
    ensures var r := Auth(AuthInput(input.adminEmail, TenantService.PlainKey(input, generatedKey), input.domain),
                          before + [TenantService.StoredTenant(input, newTenantId, generatedKey, encrypt)], usersOf, compare, sign);
      r.Ok? && r.value.AuthSucceeded? &&
      r.value.user == UserRepo.NewUser(TenantService.AdminUserInput(input), TenantService.SystemContext(newTenantId, None, requestId), newUserId, freshId)
  {
    var stored := TenantService.StoredTenant(input, newTenantId, generatedKey, encrypt);
    var admin := UserRepo.NewUser(TenantService.AdminUserInput(input), TenantService.SystemContext(newTenantId, None, requestId), newUserId, freshId);
    TenantService.DomainTakenIff(before, input.domain);
    FirstIndexPastPrefix(before, [stored], TenantFilter(ByDomain(input.domain)));
    assert FindTenant(before + [stored], ByDomain(input.domain)) == Some(stored);
    FirstIndexPastPrefix(users, [admin], UserRepo.UserFilter(ByEmail(input.adminEmail)));
    assert UserRepo.FindUser(usersOf(newTenantId), ByEmail(input.adminEmail)) == Some(admin);
    assert admin.roles == [Admin];
  }
}
