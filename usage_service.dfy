/**
 * Usage tracking and analytics (services/usage/usageService.ts): records pass through to
 * the repository; analytics are gated on the usage-dashboard scope, aggregated, and then
 * labelled with agent names.
 */
module UsageService {
  import opened Wrappers
  import opened Enums
  import opened Common
  import opened Schema
  import opened EntityRepo
  import opened AgentRepo
  import opened Aggregation
  import opened UsageRepo
  import opened UsageAnalytics
  import opened Rbac

  const AccessDenied: string := "Access denied: insufficient permissions to access usage analytics"

  /** `trackUsage`: store the record. */
  method TrackUsage(repo: UsageRepository, input: TrackUsageInput, context: Context, newId: Id, now: int)
    returns (u: Usage)
    requires repo.Valid()
    requires newId != "" && newId !in Ids(repo.Usages(), UsageId)
    modifies repo.base
    ensures repo.Valid()
    ensures u == NewUsage(input, context, newId, now)
    ensures repo.Usages() == old(repo.Usages()) + [u]
  {
    u := repo.CreateUsage(input, context, newId, now);
  }

  /**
   * `usageAnalytics`: callers without the usage-dashboard scope are refused; otherwise
   * the aggregation's rows, post-processed, or the aggregation's error.
   */
  method GetUsageAnalytics(usages: UsageRepository, agents: AgentRepository, input: UsageAnalyticInput, context: Context)
    returns (r: Result<seq<Row>>)
    ensures !IsPermitted(context.scopes, UsageDashboard) ==> r == Err(Failure(AccessDenied))
    ensures IsPermitted(context.scopes, UsageDashboard) ==>
      match Aggregate(PipelineFor(input), usages.Usages())
      case Err(e) => r == Err(e)
      case Ok(rows) => r == Ok(PostProcessed(input, rows, agents.Agents(), context.userId))
  {
    if !IsPermitted(context.scopes, UsageDashboard) {
      return Err(Failure(AccessDenied));
    }
    var aggregated := usages.AggregateUsages(input, context);
    if aggregated.Err? {
      return aggregated;
    }
    var rows := aggregated.value;
    var items := new Row[|rows|](i requires 0 <= i < |rows| => rows[i]);
    assert items[..] == rows;
    PostProcess(input, items, agents, context);
    r := Ok(items[..]);
  }

  /** `getUsage`. */
  method GetUsage(repo: UsageRepository, input: GetUsageInput) returns (r: Option<Usage>)
    ensures UsageQuery(input).IsEmpty() ==> r.None?
    ensures !UsageQuery(input).IsEmpty() ==> r == FirstMatch(repo.Usages(), UsageFilter(input))
  {
    r := repo.GetUsage(input);
  }

  /** `getAllUsages`. */
  method GetAllUsages(repo: UsageRepository, input: GetAllUsagesInput) returns (r: seq<Usage>)
    ensures AllUsagesQuery(input).IsEmpty() ==> r == []
    ensures !AllUsagesQuery(input).IsEmpty() ==> r == Filter(repo.Usages(), AllUsagesFilter(input))
  {
    r := repo.GetAllUsages(input);
  }
}
