/**
 * Session management (services/session/session.service.ts): a session may only be
 * opened with an existing agent.
 */
module SessionService {
  import opened Wrappers
  import opened Common
  import opened Schema
  import opened EntityRepo
  import opened Pagination
  import opened AgentRepo
  import opened SessionRepo
  import AgentService

  /** `CreateSessionInput`. */
  datatype CreateSessionInput = CreateSessionInput(agentId: Id)

  function AgentNotFound(agentId: Id): string
  {
    "Agent with id " + agentId + " not found"
  }

  /** `getSession`. */
  method GetSession(repo: SessionRepository, sessionId: Id) returns (r: Option<Session>)
    requires repo.Valid()
    ensures r == SessionById(repo.Sessions(), sessionId)
  {
    r := repo.GetSessionById(sessionId);
  }

  /** `getAllSessions`: the repository listing, unchanged. */
  method GetAllSessions(repo: SessionRepository, input: GetAllSessionInput, context: Context) returns (r: seq<Session>)
    ensures var options := PaginationOptions(input.pagination);
      r == Window(Filter(repo.Sessions(), SessionFilter(input, context.userId)), options.skip, options.limit)
    ensures forall i :: 0 <= i < |r| ==> r[i].userId == context.userId
  {
    r := repo.GetAllSessions(input, context);
  }

  /**
   * `createSession`: an unknown agent throws and opens nothing; otherwise the caller's
   * session with that agent is stored and returned.
   */
  method CreateSession(sessions: SessionRepository, agents: AgentRepository, input: CreateSessionInput,
                       context: Context, newId: Id) returns (r: Result<Session>)
    requires sessions.Valid() && agents.Valid()
    requires newId != "" && newId !in Ids(sessions.Sessions(), SessionId)
    modifies sessions.base
    ensures sessions.Valid()
    ensures AgentById(agents.Agents(), input.agentId).None? ==>
      r == Err(Failure(AgentNotFound(input.agentId))) && sessions.Sessions() == old(sessions.Sessions())
    ensures AgentById(agents.Agents(), input.agentId).Some? ==>
      r == Ok(NewSession(input.agentId, context, newId)) && sessions.Sessions() == old(sessions.Sessions()) + [r.value]
    ensures r.Ok? ==> exists i :: 0 <= i < |agents.Agents()| && agents.Agents()[i].id == r.value.agentId
  {
    var agent := AgentService.GetAgent(agents, input.agentId);
    if agent.None? {
      return Err(Failure(AgentNotFound(input.agentId)));
    }
    var s := sessions.CreateSession(input.agentId, context, newId);
    r := Ok(s);
  }
}
