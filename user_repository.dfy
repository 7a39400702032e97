/**
 * The users collection of one tenant (models/user/user.repository.ts): creation with
 * schema defaults and a creator, `$set` updates, the active-user listing and the
 * single-user look-up.
 */
module UserRepo {
  import opened Wrappers
  import opened Enums
  import opened Common
  import opened Schema
  import opened Pagination
  import opened EntityRepo

  /** `CreateUserInput`. */
  datatype CreateUserInput = CreateUserInput(
    name: Option<string>, emailId: string, status: Option<UserStatus>, roles: Option<seq<Role>>)

  /** `Partial<CreateUserInput>`: the fields an update may set. */
  datatype UserPatch = UserPatch(
    name: Option<string>, emailId: Option<string>, status: Option<UserStatus>, roles: Option<seq<Role>>)

  /** `GetUserInput`. */
  datatype GetUserInput = GetUserInput(userId: Option<Id>, emailId: Option<string>)

  /** `GetAllUsersInput`. */
  datatype GetAllUsersInput = GetAllUsersInput(
    searchText: Option<string>, emailIds: Option<seq<string>>, roles: Option<seq<Role>>,
    pagination: Option<PageRequest>)

  /** The creator recorded on a new user: the caller, unless the caller id is empty or the text "null". */
  function CreatorOf(context: Context, freshId: Id): (r: Id)
    ensures context.userId != "" && context.userId != "null" ==> r == context.userId
    ensures context.userId == "" || context.userId == "null" ==> r == freshId
  {
    if context.userId != "" && context.userId != "null" then context.userId else freshId
  }

  /**
   * The document `createUser` stores: the input with the schema defaults (active, the
   * USER role) and the creator as both audit ids.
   */
  function NewUser(input: CreateUserInput, context: Context, id: Id, freshId: Id): (u: User)
    ensures u.id == id && u.name == input.name && u.emailId == input.emailId
    ensures u.status == OrElse(input.status, Active) && u.roles == OrElse(input.roles, [Role.User])
    ensures u.createdById == CreatorOf(context, freshId) && u.updatedById == u.createdById
  {
    var creator := CreatorOf(context, freshId);
    Schema.User.User(id, input.name, input.emailId, OrElse(input.status, Active), OrElse(input.roles, [Role.User]), creator, creator)
  }

  /** `$set` of the patch's supplied fields. */
  function Patched(u: User, patch: UserPatch): (r: User)
    ensures r.name == (if patch.name.Some? then patch.name else u.name)
    ensures r.emailId == OrElse(patch.emailId, u.emailId)
    ensures r.status == OrElse(patch.status, u.status) && r.roles == OrElse(patch.roles, u.roles)
    ensures r.id == u.id && r.createdById == u.createdById && r.updatedById == u.updatedById
  {
    u.(name := if patch.name.Some? then patch.name else u.name,
       emailId := OrElse(patch.emailId, u.emailId),
       status := OrElse(patch.status, u.status),
       roles := OrElse(patch.roles, u.roles))
  }

  /** The query `{ _id: id }` on users. */
  function HasUserId(id: Id): User -> bool
  {
    (u: User) => u.id == id
  }

  /** The user with a given id, if any. */
  function UserById(docs: seq<User>, id: Id): (r: Option<User>)
    ensures r.Some? ==> r.value in docs && r.value.id == id
    ensures r.None? ==> forall i :: 0 <= i < |docs| ==> docs[i].id != id
  {
    FirstMatch(docs, HasUserId(id))
  }

  /** The collection after `$set`-ing a patch on the user with this id; unchanged when there is none. */
  function PatchById(docs: seq<User>, id: Id, patch: UserPatch): (r: seq<User>)
    ensures |r| == |docs|
    ensures UserById(docs, id).None? ==> r == docs
    ensures forall i :: 0 <= i < |docs| ==> r[i] == docs[i] || (docs[i].id == id && r[i] == Patched(docs[i], patch))
    ensures UserById(docs, id).Some? ==> Patched(UserById(docs, id).value, patch) in r
  {
    match FirstIndex(docs, HasUserId(id))
    case None => docs
    case Some(i) => docs[i := Patched(docs[i], patch)]
  }

  /**
   * Whether a user satisfies the listing query. `matches(pattern, text)` stands for the
   * case-insensitive regular-expression test; a user without a name never matches on it.
   */
  predicate MatchesAllUsersInput(input: GetAllUsersInput, matches: (string, string) -> bool, u: User)
  {
    u.status == Active &&
    (NonEmpty(input.emailIds) ==> u.emailId in input.emailIds.value) &&
    (Present(input.searchText) ==>
      (u.name.Some? && matches(input.searchText.value, u.name.value)) || matches(input.searchText.value, u.emailId)) &&
    (NonEmpty(input.roles) ==> exists r :: r in u.roles && r in input.roles.value)
  }

  function AllUsersFilter(input: GetAllUsersInput, matches: (string, string) -> bool): User -> bool
  {
    (u: User) => MatchesAllUsersInput(input, matches, u)
  }

  /** The query `getAllUsers` builds: it always holds the status key, so it is never empty. */
  function AllUsersQuery(input: GetAllUsersInput, matches: (string, string) -> bool): (q: Query<User>)
    ensures !q.IsEmpty()
  {
    Query(1 + (if NonEmpty(input.emailIds) then 1 else 0) + (if Present(input.searchText) then 1 else 0) +
          (if NonEmpty(input.roles) then 1 else 0),
          AllUsersFilter(input, matches))
  }

  /** Whether a user satisfies every key of a `getUser` query. */
  predicate MatchesUserInput(input: GetUserInput, u: User)
  {
    (Present(input.userId) ==> u.id == input.userId.value) &&
    (Present(input.emailId) ==> u.emailId == input.emailId.value)
  }

  function UserFilter(input: GetUserInput): User -> bool
  {
    (u: User) => MatchesUserInput(input, u)
  }

  /** The query `getUser` builds: a key per supplied field. */
  function UserQuery(input: GetUserInput): (q: Query<User>)
    ensures q.IsEmpty() <==> !Present(input.userId) && !Present(input.emailId)
  {
    Query((if Present(input.userId) then 1 else 0) + (if Present(input.emailId) then 1 else 0), UserFilter(input))
  }

  /** What `getUser` finds: the first user matching every supplied field; nothing when none is supplied. */
  function FindUser(docs: seq<User>, input: GetUserInput): (r: Option<User>)
    ensures r.Some? ==> r.value in docs && MatchesUserInput(input, r.value)
    ensures !Present(input.userId) && !Present(input.emailId) ==> r.None?
    ensures r.None? && (Present(input.userId) || Present(input.emailId)) ==> forall i :: 0 <= i < |docs| ==> !MatchesUserInput(input, docs[i])
  {
    if UserQuery(input).IsEmpty() then None else FirstMatch(docs, UserFilter(input))
  }

  /** `UserRepository`: the `users` collection, cached per tenant. */
  class UserRepository {
    const base: EntityBaseCrud<User>

    /** Stored users have unique ids, and `_id` is the id the base repository reads. */
    ghost predicate Valid()
      reads this, base
    {
      UniqueIds(base.docs, UserId) && base.idOf == UserId
    }

    function Users(): seq<User>
      reads this, base
    {
      base.docs
    }

    constructor()
      ensures Valid() && Users() == []
      ensures base.className == "UserType" && base.collection == "users"
      ensures base.cacheModel && !base.useGlobalClient
      ensures fresh(base)
    {
      base := new EntityBaseCrud("UserType", "users", Some(true), false, UserId);
    }

    /** `createUser`: store the input with defaults and its creator under a fresh id. */
    method CreateUser(input: CreateUserInput, context: Context, newId: Id, freshId: Id) returns (u: User)
      requires Valid()
      requires newId != "" && newId !in Ids(Users(), UserId)
      modifies base
      ensures Valid()
      ensures u == NewUser(input, context, newId, freshId)
      ensures Users() == old(Users()) + [u]
    {
      u := NewUser(input, context, newId, freshId);
      CreateKeepsIdsUnique(base.docs, u, UserId);
      u := base.Create(u);
    }

    /**
     * `updateUser`: `$set` the supplied fields on the user with this id and return it;
     * null, and nothing changed, when there is none.
     */
    method UpdateUser(id: Id, patch: UserPatch) returns (r: Option<User>)
      requires Valid()
      modifies base
      ensures Valid()
      ensures Users() == PatchById(old(Users()), id, patch)
      ensures r.Some? <==> old(UserById(Users(), id)).Some?
      ensures r.Some? ==> r.value == Patched(old(UserById(Users(), id)).value, patch)
    {
      ghost var before := base.docs;
      FirstIndexAgrees(base.docs, base.HasId(id), HasUserId(id));
      r := base.FindOneAndUpdate(Query(1, base.HasId(id)), (u: User) => Patched(u, patch));
      if FirstIndex(before, base.HasId(id)).Some? {
        var i := FirstIndex(before, base.HasId(id)).value;
        ReplaceKeepsIdsUnique(before, i, Patched(before[i], patch), UserId);
      }
    }

    /** `getUserById`. */
    method GetUserById(id: Id) returns (r: Option<User>)
      requires Valid()
      ensures r == UserById(Users(), id)
    {
      FirstIndexAgrees(base.docs, base.HasId(id), HasUserId(id));
      r := base.FindById(id);
    }

    /**
     * `getAllUsers`: the active users matching every supplied filter, then the
     * requested page.
     */
    method GetAllUsers(input: GetAllUsersInput, matches: (string, string) -> bool) returns (r: seq<User>)
      ensures var options := PaginationOptions(input.pagination);
        r == Window(Filter(Users(), AllUsersFilter(input, matches)), options.skip, options.limit)
      ensures forall i :: 0 <= i < |r| ==> r[i] in Users() && r[i].status == Active
      ensures NonEmpty(input.emailIds) ==> forall i :: 0 <= i < |r| ==> r[i].emailId in input.emailIds.value
    {
      var options := BuildPaginationOption(input.pagination);
      r := base.FindAll(AllUsersQuery(input, matches), options);
    }

    /** `getUser`: the first user matching every supplied field; null when none is supplied. */
    method GetUser(input: GetUserInput) returns (r: Option<User>)
      ensures r == FindUser(Users(), input)
    {
      r := base.FindOne(UserQuery(input), None);
    }
  }
}
