/**
 * Post-processing of analytics rows (services/usage/utils/usageAnalytics.utils.ts): when
 * the rows are grouped by agent, each row's key is replaced by the agent's name, or by
 * "Unknown Agent" when the key names no listed agent with a name.
 */
module UsageAnalytics {
  import opened Wrappers
  import opened Enums
  import opened Common
  import opened Schema
  import opened EntityRepo
  import opened AgentRepo
  import opened AgentService
  import opened Aggregation

  const UnknownAgent: string := "Unknown Agent"
  const AgentDimension: string := "agentId"

  /** The listing input `getAgentNameMap` sends: only the agent ids. */
  function IdsInput(agentIds: seq<Id>): ListAgentsInput
  {
    ListAgentsInput(None, None, None, Some(agentIds), None)
  }

  /** The name test of a listing without a name filter; it is never consulted. */
  function AnyName(pattern: string, name: string): bool
  {
    true
  }

  /** The agents the listing returns for these ids (every match: no pagination is asked for). */
  function AgentsFor(agents: seq<Agent>, agentIds: seq<Id>, userId: Id): seq<Agent>
  {
    Filter(agents, ListFilter(IdsInput(agentIds), userId, AnyName))
  }

  /** The id-to-name record built agent by agent; a later agent with the same id wins. */
  function NameMapOf(agents: seq<Agent>): (m: map<Id, string>)
    ensures forall id :: id in m <==> exists i :: 0 <= i < |agents| && agents[i].id == id
  {
    if |agents| == 0 then map[]
    else
      var last := agents[|agents| - 1];
      var init := NameMapOf(agents[..|agents| - 1]);
      assert forall i :: 0 <= i < |agents| - 1 ==> agents[..|agents| - 1][i] == agents[i];
      init[last.id := last.name]
  }

  /** Each entry of the name record is the name of an agent carrying that id. */
  lemma {:induction false} NameMapEntry(agents: seq<Agent>, id: Id)
    requires id in NameMapOf(agents)
    ensures exists i :: 0 <= i < |agents| && agents[i].id == id && agents[i].name == NameMapOf(agents)[id]
  {
    var last := agents[|agents| - 1];
    var init := agents[..|agents| - 1];
    if last.id != id {
      NameMapEntry(init, id);
      var i :| 0 <= i < |init| && init[i].id == id && init[i].name == NameMapOf(init)[id];
      assert agents[i] == init[i];
    }
  }

  /** The agent id a row key stands for: a non-empty string key. */
  function AgentIdOf(k: Key): (r: Option<Id>)
    ensures r.Some? <==> k.StrKey? && k.s != ""
    ensures r.Some? ==> r.value == k.s
  {
    if k.StrKey? && k.s != "" then Some(k.s) else None
  }

  /** The truthy keys of the rows, in row order. */
  function TruthyIds(rows: seq<Row>): (r: seq<Id>)
    ensures forall i :: 0 <= i < |rows| && AgentIdOf(rows[i].id).Some? ==> AgentIdOf(rows[i].id).value in r
    ensures forall x :: x in r ==> exists i :: 0 <= i < |rows| && AgentIdOf(rows[i].id) == Some(x)
  {
    if |rows| == 0 then []
    else
      var init := TruthyIds(rows[..|rows| - 1]);
      var k := AgentIdOf(rows[|rows| - 1].id);
      assert forall i :: 0 <= i < |rows| - 1 ==> rows[..|rows| - 1][i] == rows[i];
      init + (if k.Some? then [k.value] else [])
  }

  /** The key a row gets: the agent's name when the record has a non-empty one, else "Unknown Agent". */
  function Relabel(k: Key, names: map<Id, string>): (r: Key)
    ensures r.StrKey?
    ensures r != StrKey(UnknownAgent) ==> AgentIdOf(k).Some? && AgentIdOf(k).value in names && r == StrKey(names[AgentIdOf(k).value])
  {
    var id := AgentIdOf(k);
    if id.Some? && id.value in names && names[id.value] != "" then StrKey(names[id.value]) else StrKey(UnknownAgent)
  }

  /** The rows `postProcessUsageAnalyticsResults` leaves: relabelled under the agent dimension, else untouched. */
  function PostProcessed(input: UsageAnalyticInput, rows: seq<Row>, agents: seq<Agent>, userId: Id): (r: seq<Row>)
    ensures |r| == |rows|
    ensures forall i :: 0 <= i < |rows| ==> r[i] == rows[i].(id := r[i].id)
    ensures input.dimension != Some(AgentDimension) ==> r == rows
    ensures input.dimension == Some(AgentDimension) ==> forall i :: 0 <= i < |rows| ==> r[i].id.StrKey?
  {
    if input.dimension == Some(AgentDimension) then
      var names := NameMapOf(AgentsFor(agents, TruthyIds(rows), userId));
      seq(|rows|, i requires 0 <= i < |rows| => rows[i].(id := Relabel(rows[i].id, names)))
    else rows
  }

  /**
   * A row keyed by a stored agent with a known primary provider and a non-empty name is
   * labelled with that name.
   */
  lemma KnownAgentNamed(input: UsageAnalyticInput, rows: seq<Row>, agents: seq<Agent>, userId: Id, i: nat, j: nat)
    requires input.dimension == Some(AgentDimension)
    requires UniqueIds(agents, AgentId)
    requires i < |rows| && j < |agents|
    requires rows[i].id == StrKey(agents[j].id)
    requires agents[j].primaryProvider in AllProviderTags && agents[j].name != ""
    ensures PostProcessed(input, rows, agents, userId)[i] == rows[i].(id := StrKey(agents[j].name))
  {
    var a := agents[j];
    var ids := TruthyIds(rows);
    var listed := AgentsFor(agents, ids, userId);
    assert a.id in ids;
    assert ListFilter(IdsInput(ids), userId, AnyName)(agents[j]);
    assert a in listed;
    NameMapEntry(listed, a.id);
    var names := NameMapOf(listed);
    var k :| 0 <= k < |listed| && listed[k].id == a.id && listed[k].name == names[a.id];
    assert listed[k] in agents;
    var m :| 0 <= m < |agents| && agents[m] == listed[k];
    assert AgentId(agents[m]) == AgentId(agents[j]);
    assert m == j;
  }

  /** A row whose key names no stored agent is labelled "Unknown Agent". */
  lemma UnknownAgentLabelled(input: UsageAnalyticInput, rows: seq<Row>, agents: seq<Agent>, userId: Id, i: nat)
    requires input.dimension == Some(AgentDimension)
    requires i < |rows|
    requires forall j :: 0 <= j < |agents| ==> AgentIdOf(rows[i].id) != Some(agents[j].id)
    ensures PostProcessed(input, rows, agents, userId)[i] == rows[i].(id := StrKey(UnknownAgent))
  {
  }

  /** `getAgentNameMap`: list the agents with these ids and record each one's name under its id. */
  method GetAgentNameMap(repo: AgentRepository, agentIds: seq<Id>, context: Context) returns (m: map<Id, string>)
    ensures m == NameMapOf(AgentsFor(repo.Agents(), agentIds, context.userId))
  {
    var agents := GetAgents(repo, IdsInput(agentIds), context, AnyName);
    NoPaginationReturnsAll(AgentsFor(repo.Agents(), agentIds, context.userId));
    m := RecordNames(agents);
  }

  /** The `forEach` of `getAgentNameMap`: record each agent's name under its id. */
  method RecordNames(agents: seq<Agent>) returns (m: map<Id, string>)
    ensures m == NameMapOf(agents)
  {
    m := map[];
    var i := 0;
    while i < |agents|
      invariant 0 <= i <= |agents|
      invariant m == NameMapOf(agents[..i])
    {
      assert agents[..i + 1][..i] == agents[..i];
      m := m[agents[i].id := agents[i].name];
      i := i + 1;
    }
    assert agents[..i] == agents;
  }

  /**
   * `postProcessUsageAnalyticsResults`: under the agent dimension, relabel every row's key
   * in place; under any other dimension leave the rows as they are.
   */
  method PostProcess(input: UsageAnalyticInput, rows: array<Row>, repo: AgentRepository, context: Context)
    modifies rows
    ensures rows[..] == PostProcessed(input, old(rows[..]), repo.Agents(), context.userId)
  {
    if input.dimension == Some(AgentDimension) {
      var agentIds := TruthyIds(rows[..]);
      var names := GetAgentNameMap(repo, agentIds, context);
      var i := 0;
      while i < rows.Length
        invariant 0 <= i <= rows.Length
        invariant forall j :: 0 <= j < i ==> rows[j] == old(rows[j]).(id := Relabel(old(rows[j]).id, names))
        invariant forall j :: i <= j < rows.Length ==> rows[j] == old(rows[j])
      {
        rows[i] := rows[i].(id := Relabel(rows[i].id, names));
        i := i + 1;
      }
    }
  }
}
