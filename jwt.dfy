/**
 * The claims the backend signs into its tokens (utils/jwt.ts). Signing and verifying
 * are the jsonwebtoken library's and appear in the model only as oracle parameters.
 */
module Jwt {
  import opened Wrappers
  import opened Enums
  import opened Schema
  import opened Rbac

  /**
   * A token payload. A public token carries only its access type; its other claims are
   * empty here. `scopes` is absent from refresh and public tokens.
   */
  datatype TokenClaims = TokenClaims(
    accessType: AccessType, tenantId: string, emailId: string, userId: string, scopes: Option<seq<Scope>>)

  /** What `verifyToken` returns for a valid token: its claims and `exp`, seconds since the epoch. */
  datatype VerifiedToken = VerifiedToken(claims: TokenClaims, exp: Option<int>)

  /** The lifetimes `generateAccessToken` and `generateRefreshToken` request. */
  const AccessExpiry: string := "1h"
  const RefreshExpiry: string := "7d"
  const PublicExpiry: string := "1h"

  /**
   * `generateAccessToken`'s payload: tenant, user and the scopes of the user's roles. A
   * role naming an inherited member of the scope map makes `getPermittedScopes` throw,
   * and no payload is built.
   */
  function AccessClaims(tenant: Tenant, user: User): (r: Result<TokenClaims>)
    ensures r.Err? <==> exists i :: 0 <= i < |user.roles| && Inherited(user.roles[i])
    ensures r.Ok? ==> var c := r.value;
      c.accessType == Access && c.tenantId == tenant.id && c.userId == user.id && c.emailId == user.emailId
    ensures r.Ok? ==> r.value.scopes.Some? && Distinct(r.value.scopes.value)
    ensures r.Ok? ==> forall s :: s in r.value.scopes.value <==> exists i :: 0 <= i < |user.roles| && s in RoleScopes(user.roles[i])
  {
    ScopesForRolesContents(user.roles);
    match PermittedScopes(user.roles)
    case Err(e) => Err(e)
    case Ok(scopes) => Ok(TokenClaims(Access, tenant.id, user.emailId, user.id, Some(scopes)))
  }

  /** `generateRefreshToken`'s payload: tenant and user, no scopes. */
  function RefreshClaims(tenant: Tenant, user: User): (c: TokenClaims)
    ensures c.accessType == Refresh && c.tenantId == tenant.id && c.userId == user.id && c.emailId == user.emailId
    ensures c.scopes.None?
  {
    TokenClaims(Refresh, tenant.id, user.emailId, user.id, None)
  }

  /** `generatePublicToken`'s payload: the access type alone. */
  function PublicClaims(): (c: TokenClaims)
    ensures c.accessType == Public && c.scopes.None?
  {
    TokenClaims(Public, "", "", "", None)
  }
}
