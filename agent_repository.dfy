/**
 * The agents collection (models/agent/agent.repository.ts): agent creation, `$set`
 * updates, look-up by id, and the filtered, paginated listing.
 */
module AgentRepo {
  import opened Wrappers
  import opened Enums
  import opened Common
  import opened Schema
  import opened Pagination
  import opened EntityRepo

  /** `CreateAgentInput`. */
  datatype CreateAgentInput = CreateAgentInput(
    name: string, primaryProvider: string, fallbackProvider: Option<string>, prompt: string)

  /** `UpdateAgentInput`: every field optional. */
  datatype UpdateAgentInput = UpdateAgentInput(
    name: Option<string>, primaryProvider: Option<string>, fallbackProvider: Option<string>, prompt: Option<string>)

  /** `ListAgentsInput`: optional filters and pagination; provider names as received. */
  datatype ListAgentsInput = ListAgentsInput(
    name: Option<string>, primaryProvider: Option<string>, fallbackProvider: Option<string>,
    agentIds: Option<seq<Id>>, pagination: Option<PageRequest>)

  /** The agent `createAgent` stores for an input. */
  function NewAgent(input: CreateAgentInput, context: Context, id: Id): (a: Agent)
    ensures a.id == id && a.createdById == context.userId && a.updatedById == context.userId
    ensures a.name == input.name && a.prompt == input.prompt
    ensures a.primaryProvider == input.primaryProvider && a.fallbackProvider == input.fallbackProvider
  {
    Agent(id, input.name, input.primaryProvider, input.fallbackProvider, input.prompt, context.userId, context.userId)
  }

  /** `$set` of the supplied fields onto the stored agent. */
  function ApplyUpdate(a: Agent, input: UpdateAgentInput): (r: Agent)
    ensures r.id == a.id && r.createdById == a.createdById && r.updatedById == a.updatedById
    ensures r.name == OrElse(input.name, a.name) && r.prompt == OrElse(input.prompt, a.prompt)
    ensures r.primaryProvider == OrElse(input.primaryProvider, a.primaryProvider)
    ensures r.fallbackProvider == if input.fallbackProvider.Some? then input.fallbackProvider else a.fallbackProvider
  {
    a.(name := OrElse(input.name, a.name),
       primaryProvider := OrElse(input.primaryProvider, a.primaryProvider),
       fallbackProvider := if input.fallbackProvider.Some? then input.fallbackProvider else a.fallbackProvider,
       prompt := OrElse(input.prompt, a.prompt))
  }

  /** The agent with a given id, if any. */
  function AgentById(docs: seq<Agent>, id: Id): (r: Option<Agent>)
    ensures r.Some? ==> r.value in docs && r.value.id == id
    ensures r.None? ==> forall i :: 0 <= i < |docs| ==> docs[i].id != id
  {
    FirstMatch(docs, (a: Agent) => a.id == id)
  }

  /**
   * Whether an agent satisfies the listing query. `nameMatches(pattern, name)` stands for
   * the case-insensitive regular-expression test on the name.
   */
  predicate MatchesListInput(input: ListAgentsInput, userId: Id, nameMatches: (string, string) -> bool, a: Agent)
  {
    (Present(input.name) ==> nameMatches(input.name.value, a.name)) &&
    (if Present(input.primaryProvider) then a.primaryProvider == input.primaryProvider.value
     else a.primaryProvider in AllProviderTags) &&
    (Present(input.fallbackProvider) ==> a.fallbackProvider == input.fallbackProvider) &&
    (if NonEmpty(input.agentIds) then a.id in input.agentIds.value else a.createdById == userId)
  }

  /** The listing query's test, as a function value. */
  function ListFilter(input: ListAgentsInput, userId: Id, nameMatches: (string, string) -> bool): Agent -> bool
  {
    (a: Agent) => MatchesListInput(input, userId, nameMatches, a)
  }

  /**
   * The query `getAgents` builds. It always holds a `primaryProvider` key and either an
   * `_id` or a `createdById` key, so it is never empty.
   */
  function ListQuery(input: ListAgentsInput, userId: Id, nameMatches: (string, string) -> bool): (q: Query<Agent>)
    ensures !q.IsEmpty() && q.keyCount >= 2
  {
    Query(2 + (if Present(input.name) then 1 else 0) + (if Present(input.fallbackProvider) then 1 else 0),
          ListFilter(input, userId, nameMatches))
  }

  /** `AgentRepository`: the `agents` collection, cached per tenant. */
  class AgentRepository {
    const base: EntityBaseCrud<Agent>

    /** Stored agents have unique ids, and `_id` is the id the base repository reads. */
    ghost predicate Valid()
      reads this, base
    {
      UniqueIds(base.docs, AgentId) && base.idOf == AgentId
    }

    function Agents(): seq<Agent>
      reads this, base
    {
      base.docs
    }

    constructor()
      ensures Valid() && Agents() == []
      ensures base.className == "AgentType" && base.collection == "agents"
      ensures base.cacheModel && !base.useGlobalClient
      ensures fresh(base)
    {
      base := new EntityBaseCrud("AgentType", "agents", Some(true), false, AgentId);
    }

    /** `createAgent`: store the input, stamped with the caller as creator, under a fresh id. */
    method CreateAgent(input: CreateAgentInput, context: Context, newId: Id) returns (a: Agent)
      requires Valid()
      requires newId != "" && newId !in Ids(Agents(), AgentId)
      modifies base
      ensures Valid()
      ensures a == NewAgent(input, context, newId)
      ensures Agents() == old(Agents()) + [a]
    {
      a := NewAgent(input, context, newId);
      CreateKeepsIdsUnique(base.docs, a, AgentId);
      a := base.Create(a);
    }

    /**
     * `updateAgent`: `$set` the supplied fields on the agent with this id and return the
     * updated agent; null, and nothing changed, when there is none.
     */
    method UpdateAgent(id: Id, input: UpdateAgentInput) returns (r: Option<Agent>)
      requires Valid()
      modifies base
      ensures Valid()
      ensures old(AgentById(Agents(), id)).None? ==> r.None? && Agents() == old(Agents())
      ensures old(AgentById(Agents(), id)).Some? ==>
        var i := FirstIndex(old(Agents()), base.HasId(id)).value;
        old(Agents())[i].id == id && r == Some(ApplyUpdate(old(Agents())[i], input)) &&
        Agents() == old(Agents())[i := ApplyUpdate(old(Agents())[i], input)]
    {
      FirstIndexAgrees(base.docs, base.HasId(id), (a: Agent) => a.id == id);
      ghost var before := base.docs;
      r := base.FindOneAndUpdate(Query(1, base.HasId(id)), (a: Agent) => ApplyUpdate(a, input));
      if FirstIndex(before, base.HasId(id)).Some? {
        var i := FirstIndex(before, base.HasId(id)).value;
        ReplaceKeepsIdsUnique(before, i, ApplyUpdate(before[i], input), AgentId);
      }
    }

    /** `getAgentById`. */
    method GetAgentById(id: Id) returns (r: Option<Agent>)
      requires Valid()
      ensures r == AgentById(Agents(), id)
    {
      FirstIndexAgrees(base.docs, base.HasId(id), (a: Agent) => a.id == id);
      r := base.FindById(id);
    }

    /**
     * `getAgents`: the agents matching every supplied filter, limited to a known primary
     * provider unless one is given, and to the caller's own agents unless ids are given;
     * then the requested page.
     */
    method GetAgents(input: ListAgentsInput, context: Context, nameMatches: (string, string) -> bool)
      returns (r: seq<Agent>)
      ensures var options := PaginationOptions(input.pagination);
        r == Window(Filter(Agents(), ListFilter(input, context.userId, nameMatches)), options.skip, options.limit)
      ensures forall i :: 0 <= i < |r| ==> r[i] in Agents() && MatchesListInput(input, context.userId, nameMatches, r[i])
      ensures !NonEmpty(input.agentIds) ==> forall i :: 0 <= i < |r| ==> r[i].createdById == context.userId
      ensures !Present(input.primaryProvider) ==> forall i :: 0 <= i < |r| ==> r[i].primaryProvider in AllProviderTags
    {
      var query := ListQuery(input, context.userId, nameMatches);
      var options := BuildPaginationOption(Some(OrElse(input.pagination, PageRequest(None, None))));
      r := base.FindAll(query, options);
    }
  }
}
