/**
 * The sessions collection (models/session/session.repository.ts): a session is opened
 * by and for the calling user; listings never leave that user's sessions.
 */
module SessionRepo {
  import opened Wrappers
  import opened Common
  import opened Schema
  import opened Pagination
  import opened EntityRepo

  /** `GetAllSessionInput`: each id list filters with `$in` when it is non-empty. */
  datatype GetAllSessionInput = GetAllSessionInput(
    sessionIds: Option<seq<Id>>, agentIds: Option<seq<Id>>, pagination: Option<PageRequest>)

  /** The session `createSession` stores: the caller owns, created and last updated it. */
  function NewSession(agentId: Id, context: Context, id: Id): (s: Session)
    ensures s.id == id && s.agentId == agentId
    ensures s.userId == context.userId && s.createdById == context.userId && s.updatedById == context.userId
  {
    Session(id, context.userId, agentId, context.userId, context.userId)
  }

  /** The session with a given id, if any. */
  function SessionById(docs: seq<Session>, id: Id): (r: Option<Session>)
    ensures r.Some? ==> r.value in docs && r.value.id == id
    ensures r.None? ==> forall i :: 0 <= i < |docs| ==> docs[i].id != id
  {
    FirstMatch(docs, HasSessionId(id))
  }

  function HasSessionId(id: Id): Session -> bool
  {
    (s: Session) => s.id == id
  }

  /** Whether a session satisfies the listing query of a user. */
  predicate MatchesAllSessionInput(input: GetAllSessionInput, userId: Id, s: Session)
  {
    s.userId == userId &&
    (NonEmpty(input.agentIds) ==> s.agentId in input.agentIds.value) &&
    (NonEmpty(input.sessionIds) ==> s.id in input.sessionIds.value)
  }

  function SessionFilter(input: GetAllSessionInput, userId: Id): Session -> bool
  {
    (s: Session) => MatchesAllSessionInput(input, userId, s)
  }

  /** The query `getAllSessions` builds: always the owner, plus an `$in` per non-empty list. */
  function AllSessionsQuery(input: GetAllSessionInput, userId: Id): (q: Query<Session>)
    ensures !q.IsEmpty()
  {
    Query(1 + (if NonEmpty(input.agentIds) then 1 else 0) + (if NonEmpty(input.sessionIds) then 1 else 0),
          SessionFilter(input, userId))
  }

  /** `SessionRepository`: the `sessions` collection, cached per tenant. */
  class SessionRepository {
    const base: EntityBaseCrud<Session>

    ghost predicate Valid()
      reads this, base
    {
      UniqueIds(base.docs, SessionId) && base.idOf == SessionId
    }

    function Sessions(): seq<Session>
      reads this, base
    {
      base.docs
    }

    constructor()
      ensures Valid() && Sessions() == []
      ensures base.className == "SessionType" && base.collection == "sessions"
      ensures base.cacheModel && !base.useGlobalClient
      ensures fresh(base)
    {
      base := new EntityBaseCrud("SessionType", "sessions", Some(true), false, SessionId);
    }

    /** `createSession`: open a session of the caller with this agent, under a fresh id. */
    method CreateSession(agentId: Id, context: Context, newId: Id) returns (s: Session)
      requires Valid()
      requires newId != "" && newId !in Ids(Sessions(), SessionId)
      modifies base
      ensures Valid()
      ensures s == NewSession(agentId, context, newId)
      ensures Sessions() == old(Sessions()) + [s]
    {
      s := NewSession(agentId, context, newId);
      CreateKeepsIdsUnique(base.docs, s, SessionId);
      s := base.Create(s);
    }

    /** `getSessionById`. */
    method GetSessionById(id: Id) returns (r: Option<Session>)
      requires Valid()
      ensures r == SessionById(Sessions(), id)
    {
      FirstIndexAgrees(base.docs, base.HasId(id), HasSessionId(id));
      r := base.FindById(id);
    }

    /**
     * `getAllSessions`: the caller's sessions, narrowed by the non-empty id lists, then
     * the requested page.
     */
    method GetAllSessions(input: GetAllSessionInput, context: Context) returns (r: seq<Session>)
      ensures var options := PaginationOptions(input.pagination);
        r == Window(Filter(Sessions(), SessionFilter(input, context.userId)), options.skip, options.limit)
      ensures forall i :: 0 <= i < |r| ==> r[i] in Sessions() && r[i].userId == context.userId
      ensures NonEmpty(input.agentIds) ==> forall i :: 0 <= i < |r| ==> r[i].agentId in input.agentIds.value
      ensures NonEmpty(input.sessionIds) ==> forall i :: 0 <= i < |r| ==> r[i].id in input.sessionIds.value
    {
      var options := BuildPaginationOption(input.pagination);
      r := base.FindAll(AllSessionsQuery(input, context.userId), options);
    }
  }
}
