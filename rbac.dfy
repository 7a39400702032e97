/**
 * Role-based access (utils/rbac.ts): the scopes each role grants, the de-duplicated
 * scope list of a user, and the scope test that guards the usage dashboard.
 */
module Rbac {
  import opened Wrappers
  import opened Enums
  import opened Schema

  /** `isPermitted`: the context carries scopes and they include the required one. */
  function IsPermitted(scopes: Option<seq<Scope>>, required: Scope): (b: bool)
    ensures scopes.None? ==> !b
    ensures scopes.Some? ==> (b <==> exists i :: 0 <= i < |scopes.value| && scopes.value[i] == required)
  {
    scopes.Some? && required in scopes.value
  }

  /**
   * `RoleScopesMap`; a role outside the map grants nothing. The roles whose look-up
   * finds an inherited member instead are `Inherited`, and `PermittedScopes` throws for them.
   */
  function RoleScopes(role: Role): (r: seq<Scope>)
    ensures Distinct(r)
    ensures UsageDashboard in r <==> role == Admin
    ensures role.OtherRole? ==> r == []
  {
    match role
    case Admin => [UsageDashboard, UserDashboard, UserChat, UserAgent]
    case User => [UserChat, UserAgent]
    case OtherRole(_) => []
  }

  /**
   * The members every plain object inherits from `Object.prototype`. `RoleScopesMap` is
   * an object literal, so looking up one of these names yields a function (or, for
   * `__proto__`, the prototype object): truthy, but without a `forEach`.
   */
  const InheritedKeys: set<string> := {
    "constructor", "hasOwnProperty", "isPrototypeOf", "propertyIsEnumerable",
    "toLocaleString", "toString", "valueOf", "__proto__",
    "__defineGetter__", "__defineSetter__", "__lookupGetter__", "__lookupSetter__"
  }

  /** A stored role string that names an inherited member of the map. */
  function Inherited(role: Role): (b: bool)
    ensures b ==> role.OtherRole? && RoleScopes(role) == []
    ensures role == OtherRole("constructor") || role == OtherRole("__proto__") ==> b
  {
    role.OtherRole? && role.name in InheritedKeys
  }

  /** The TypeError `roleScopes.forEach(...)` throws when `roleScopes` is not an array. */
  const ForEachNotAFunction: string := "roleScopes.forEach is not a function"

  /** No scope occurs twice. */
  predicate Distinct(s: seq<Scope>)
  {
    forall i, j :: 0 <= i < j < |s| ==> s[i] != s[j]
  }

  /** `Set.add`: append the scope unless it is already there (insertion order is kept). */
  function AddScope(acc: seq<Scope>, s: Scope): seq<Scope>
  {
    if s in acc then acc else acc + [s]
  }

  /** Adding each scope of a list in turn. */
  function AddAll(acc: seq<Scope>, scopes: seq<Scope>): seq<Scope>
  {
    if |scopes| == 0 then acc else AddScope(AddAll(acc, scopes[..|scopes| - 1]), scopes[|scopes| - 1])
  }

  /** The scope set built role by role, as an insertion-ordered list. */
  function ScopesForRoles(roles: seq<Role>): (r: seq<Scope>)
    ensures Distinct(r)
  {
    if |roles| == 0 then []
    else
      var prev := ScopesForRoles(roles[..|roles| - 1]);
      AddAllContents(prev, RoleScopes(roles[|roles| - 1]));
      AddAll(prev, RoleScopes(roles[|roles| - 1]))
  }

  /**
   * `getScopesForRoles` with its throw: role by role, each mapped role adds its scopes,
   * and the first role naming an inherited member throws the TypeError.
   */
  function PermittedScopes(roles: seq<Role>): (r: Result<seq<Scope>>)
    ensures r.Err? <==> exists i :: 0 <= i < |roles| && Inherited(roles[i])
    ensures r.Err? ==> r.error == Failure(ForEachNotAFunction)
    ensures r.Ok? ==> r.value == ScopesForRoles(roles)
  {
    if |roles| == 0 then Ok([])
    else
      var init := roles[..|roles| - 1];
      var last := roles[|roles| - 1];
      match PermittedScopes(init)
      case Err(e) =>
        assert forall i :: 0 <= i < |init| ==> init[i] == roles[i];
        Err(e)
      case Ok(acc) =>
        assert forall i :: 0 <= i < |init| ==> init[i] == roles[i];
        if Inherited(last) then Err(Failure(ForEachNotAFunction))
        else Ok(AddAll(acc, RoleScopes(last)))
  }

  /** Adding a list keeps the accumulator duplicate-free and adds exactly the list's scopes. */
  lemma {:induction false} AddAllContents(acc: seq<Scope>, scopes: seq<Scope>)
    requires Distinct(acc)
    ensures Distinct(AddAll(acc, scopes))
    ensures forall s :: s in AddAll(acc, scopes) <==> s in acc || s in scopes
  {
    if |scopes| > 0 {
      var init := scopes[..|scopes| - 1];
      AddAllContents(acc, init);
      assert scopes == init + [scopes[|scopes| - 1]];
    }
  }

  /** The scopes of a role list: without duplicates, and exactly those some role grants. */
  lemma {:induction false} ScopesForRolesContents(roles: seq<Role>)
    ensures Distinct(ScopesForRoles(roles))
    ensures forall s :: s in ScopesForRoles(roles) <==> exists i :: 0 <= i < |roles| && s in RoleScopes(roles[i])
  {
    if |roles| > 0 {
      var init := roles[..|roles| - 1];
      ScopesForRolesContents(init);
      AddAllContents(ScopesForRoles(init), RoleScopes(roles[|roles| - 1]));
      forall s | s in ScopesForRoles(roles) ensures exists i :: 0 <= i < |roles| && s in RoleScopes(roles[i]) {
        if s in ScopesForRoles(init) {
          var i :| 0 <= i < |init| && s in RoleScopes(init[i]);
          assert roles[i] == init[i];
        }
      }
      forall s | (exists i :: 0 <= i < |roles| && s in RoleScopes(roles[i])) ensures s in ScopesForRoles(roles) {
        var i :| 0 <= i < |roles| && s in RoleScopes(roles[i]);
        if i < |init| {
          assert roles[i] == init[i];
        }
      }
    }
  }

  /** Only administrators reach the usage dashboard. */
  lemma UsageDashboardNeedsAdmin(roles: seq<Role>)
    ensures IsPermitted(Some(ScopesForRoles(roles)), UsageDashboard) <==> Admin in roles
  {
    ScopesForRolesContents(roles);
    if Admin in roles {
      var i :| 0 <= i < |roles| && roles[i] == Admin;
      assert UsageDashboard in RoleScopes(roles[i]);
    }
  }

  /** Every user and every administrator may chat and manage agents. */
  lemma KnownRolesMayChat(roles: seq<Role>)
    requires Admin in roles || Role.User in roles
    ensures IsPermitted(Some(ScopesForRoles(roles)), UserChat) && IsPermitted(Some(ScopesForRoles(roles)), UserAgent)
  {
    ScopesForRolesContents(roles);
    var i :| 0 <= i < |roles| && (roles[i] == Admin || roles[i] == Role.User);
    assert UserChat in RoleScopes(roles[i]) && UserAgent in RoleScopes(roles[i]);
  }

  /** An administrator holds every scope a user holds, whatever other roles come with it. */
  lemma AdminCoversUser(roles: seq<Role>)
    ensures forall s :: s in ScopesForRoles(roles + [Role.User]) ==> s in ScopesForRoles(roles + [Admin])
  {
    ScopesForRolesContents(roles + [Role.User]);
    ScopesForRolesContents(roles + [Admin]);
    forall s | s in ScopesForRoles(roles + [Role.User]) ensures s in ScopesForRoles(roles + [Admin]) {
      var i :| 0 <= i < |roles + [Role.User]| && s in RoleScopes((roles + [Role.User])[i]);
      if i < |roles| {
        assert (roles + [Admin])[i] == roles[i];
      } else {
        assert (roles + [Admin])[|roles|] == Admin;
      }
    }
  }

  /**
   * `getScopesForRoles`: collect every role's scopes into an insertion-ordered set; a
   * role naming an inherited member of the map throws.
   */
  method GetScopesForRoles(roles: seq<Role>) returns (r: Result<seq<Scope>>)
    ensures r == PermittedScopes(roles)
    ensures r.Err? <==> exists i :: 0 <= i < |roles| && Inherited(roles[i])
    ensures r.Ok? ==> Distinct(r.value)
    ensures r.Ok? ==> forall s :: s in r.value <==> exists i :: 0 <= i < |roles| && s in RoleScopes(roles[i])
  {
    var scopes := [];
    var i := 0;
    while i < |roles|
      invariant 0 <= i <= |roles|
      invariant PermittedScopes(roles[..i]) == Ok(scopes)
    {
      assert roles[..i + 1][..i] == roles[..i];
      if Inherited(roles[i]) {
        assert PermittedScopes(roles[..i + 1]).Err?;
        PrefixThrowsWhole(roles, i + 1);
        return Err(Failure(ForEachNotAFunction));
      }
      var roleScopes := RoleScopes(roles[i]);
      ghost var before := scopes;
      var j := 0;
      while j < |roleScopes|
        invariant 0 <= j <= |roleScopes|
        invariant scopes == AddAll(before, roleScopes[..j])
      {
        assert roleScopes[..j + 1][..j] == roleScopes[..j];
        if roleScopes[j] !in scopes {
          scopes := scopes + [roleScopes[j]];
        }
        j := j + 1;
      }
      assert roleScopes[..j] == roleScopes;
      i := i + 1;
    }
    assert roles[..i] == roles;
    ScopesForRolesContents(roles);
    r := Ok(scopes);
  }

  /** Once a prefix of the roles throws, the whole list throws the same error. */
  lemma PrefixThrowsWhole(roles: seq<Role>, n: nat)
    requires n <= |roles| && PermittedScopes(roles[..n]).Err?
    ensures PermittedScopes(roles) == PermittedScopes(roles[..n])
  {
    var k :| 0 <= k < n && Inherited(roles[..n][k]);
    assert roles[k] == roles[..n][k];
  }

  /**
   * `getPermittedScopes`: the scopes of the user's roles, or the TypeError of a role
   * naming an inherited member.
   */
  method GetPermittedScopes(user: User) returns (r: Result<seq<Scope>>)
    ensures r == PermittedScopes(user.roles)
    ensures r.Err? <==> exists i :: 0 <= i < |user.roles| && Inherited(user.roles[i])
    ensures r.Ok? ==> (UsageDashboard in r.value <==> Admin in user.roles)
  {
    r := GetScopesForRoles(user.roles);
    UsageDashboardNeedsAdmin(user.roles);
  }

  /** A user who also holds the role "constructor" gets no scopes at all: the look-up throws. */
  lemma ConstructorRoleThrows()
    ensures PermittedScopes([Role.User, OtherRole("constructor")]) == Err(Failure(ForEachNotAFunction))
    ensures PermittedScopes([Role.User, OtherRole("manager")]) == Ok([UserChat, UserAgent])
  {
    var roles := [Role.User, OtherRole("constructor")];
    assert Inherited(roles[1]);
    var ok := [Role.User, OtherRole("manager")];
    assert ok[..1] == [Role.User];
    assert [Role.User][..0] == [];
    assert AddAll([], [UserChat, UserAgent]) == [UserChat, UserAgent] by {
      assert [UserChat, UserAgent][..1] == [UserChat];
      assert [UserChat][..0] == [];
    }
    assert PermittedScopes([Role.User]) == Ok([UserChat, UserAgent]);
    assert !Inherited(ok[1]);
  }
}
