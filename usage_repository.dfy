/**
 * The usages collection (models/usage/usage.repository.ts): usage records written after
 * each generation, their look-ups, and the analytics aggregation over them.
 */
module UsageRepo {
  import opened Wrappers
  import opened Enums
  import opened Common
  import opened Schema
  import opened EntityRepo
  import opened Aggregation

  /** `TrackUsageInput`. */
  datatype TrackUsageInput = TrackUsageInput(
    agentId: Id, provider: ProviderType, sessionId: Id, generativeResponseId: Option<Id>,
    tokensIn: int, tokensOut: int, totalTokens: int, cost: real)

  /** `GetUsageInput`. */
  datatype GetUsageInput = GetUsageInput(usageId: Option<Id>, generativeResponseId: Option<Id>)

  /** `GetAllUsagesInput`: each list filters with `$in` when it is non-empty. */
  datatype GetAllUsagesInput = GetAllUsagesInput(
    generativeResponseIds: Option<seq<Id>>, usageIds: Option<seq<Id>>, sessionIds: Option<seq<Id>>)

  /** The record `createUsage` stores: the input, both audit ids from the caller, stamped `now`. */
  function NewUsage(input: TrackUsageInput, context: Context, id: Id, now: int): (u: Usage)
    ensures u.id == id && u.createdAt == now
    ensures u.createdById == context.userId && u.updatedById == context.userId
    ensures u.agentId == input.agentId && u.provider == input.provider && u.sessionId == input.sessionId
    ensures u.generativeResponseId == input.generativeResponseId
    ensures u.tokensIn == input.tokensIn && u.tokensOut == input.tokensOut
    ensures u.totalTokens == input.totalTokens && u.cost == input.cost
  {
    Usage(id, input.agentId, input.provider, input.sessionId, input.generativeResponseId,
      input.tokensIn, input.tokensOut, input.totalTokens, input.cost, now, context.userId, context.userId)
  }

  predicate MatchesUsageInput(input: GetUsageInput, u: Usage)
  {
    (Present(input.usageId) ==> u.id == input.usageId.value) &&
    (Present(input.generativeResponseId) ==> u.generativeResponseId == input.generativeResponseId)
  }

  function UsageFilter(input: GetUsageInput): Usage -> bool
  {
    (u: Usage) => MatchesUsageInput(input, u)
  }

  /** The query `getUsage` builds: a key per supplied (non-empty) id. */
  function UsageQuery(input: GetUsageInput): (q: Query<Usage>)
    ensures q.IsEmpty() <==> !Present(input.usageId) && !Present(input.generativeResponseId)
  {
    Query((if Present(input.usageId) then 1 else 0) + (if Present(input.generativeResponseId) then 1 else 0),
          UsageFilter(input))
  }

  predicate MatchesAllUsagesInput(input: GetAllUsagesInput, u: Usage)
  {
    (NonEmpty(input.generativeResponseIds) ==>
      u.generativeResponseId.Some? && u.generativeResponseId.value in input.generativeResponseIds.value) &&
    (NonEmpty(input.usageIds) ==> u.id in input.usageIds.value) &&
    (NonEmpty(input.sessionIds) ==> u.sessionId in input.sessionIds.value)
  }

  function AllUsagesFilter(input: GetAllUsagesInput): Usage -> bool
  {
    (u: Usage) => MatchesAllUsagesInput(input, u)
  }

  /** The query `getAllUsages` builds: an `$in` per non-empty list. */
  function AllUsagesQuery(input: GetAllUsagesInput): (q: Query<Usage>)
    ensures q.IsEmpty() <==>
      !NonEmpty(input.generativeResponseIds) && !NonEmpty(input.usageIds) && !NonEmpty(input.sessionIds)
  {
    Query((if NonEmpty(input.generativeResponseIds) then 1 else 0) + (if NonEmpty(input.usageIds) then 1 else 0) +
          (if NonEmpty(input.sessionIds) then 1 else 0),
          AllUsagesFilter(input))
  }

  /** `UsageRepository`: the `usages` collection, cached per tenant. */
  class UsageRepository {
    const base: EntityBaseCrud<Usage>

    ghost predicate Valid()
      reads this, base
    {
      UniqueIds(base.docs, UsageId) && base.idOf == UsageId
    }

    function Usages(): seq<Usage>
      reads this, base
    {
      base.docs
    }

    constructor()
      ensures Valid() && Usages() == []
      ensures base.className == "UsageType" && base.collection == "usages"
      ensures base.cacheModel && !base.useGlobalClient
      ensures fresh(base)
    {
      base := new EntityBaseCrud("UsageType", "usages", Some(true), false, UsageId);
    }

    /** `createUsage`: store the record under a fresh id and return it. */
    method CreateUsage(input: TrackUsageInput, context: Context, newId: Id, now: int) returns (u: Usage)
      requires Valid()
      requires newId != "" && newId !in Ids(Usages(), UsageId)
      modifies base
      ensures Valid()
      ensures u == NewUsage(input, context, newId, now)
      ensures Usages() == old(Usages()) + [u]
    {
      u := NewUsage(input, context, newId, now);
      CreateKeepsIdsUnique(base.docs, u, UsageId);
      u := base.Create(u);
    }

    /**
     * `aggregateUsages`: build the pipeline, attach the request comment to its `$match`
     * stages and run it; the comment does not change the result.
     */
    method AggregateUsages(input: UsageAnalyticInput, context: Context) returns (r: Result<seq<Row>>)
      ensures r == Aggregate(PipelineFor(input), Usages())
    {
      var pipeline := BuildAggregation(input);
      var stages := new Stage[|pipeline|](i requires 0 <= i < |pipeline| => pipeline[i]);
      var comment := CommentPayload(context.requestId);
      AttachComment(stages, comment);
      assert stages[..] == seq(|pipeline|, i requires 0 <= i < |pipeline| => WithComment(pipeline[i], comment));
      CommentIsInert(pipeline, comment, Records(base.docs));
      r := Aggregate(stages[..], base.docs);
    }

    /** `getUsage`: the first record matching every supplied id; null when none is supplied. */
    method GetUsage(input: GetUsageInput) returns (r: Option<Usage>)
      ensures UsageQuery(input).IsEmpty() ==> r.None?
      ensures !UsageQuery(input).IsEmpty() ==> r == FirstMatch(Usages(), UsageFilter(input))
    {
      r := base.FindOne(UsageQuery(input), None);
    }

    /**
     * `getAllUsages`: the records whose fields are in every non-empty list, in stored
     * order; nothing when every list is absent or empty.
     */
    method GetAllUsages(input: GetAllUsagesInput) returns (r: seq<Usage>)
      ensures AllUsagesQuery(input).IsEmpty() ==> r == []
      ensures !AllUsagesQuery(input).IsEmpty() ==> r == Filter(Usages(), AllUsagesFilter(input))
    {
      var q := AllUsagesQuery(input);
      r := base.FindAll(q, Pagination.QueryOptions(None, None));
      NoPaginationReturnsAll(Filter(base.docs, q.matches));
    }
  }
}
