/** Turning request pagination into query options (models/base/entity.repository.ts, utils/pagination.ts). */
module Pagination {
  import opened Wrappers

  /** The request's pagination: optional page size and offset. */
  datatype PageRequest = PageRequest(limit: Option<nat>, offset: Option<nat>)

  /** The query options a repository passes to the database: optional limit and skip. */
  datatype QueryOptions = QueryOptions(limit: Option<nat>, skip: Option<nat>)

  /** The options a request's pagination stands for. */
  function PaginationOptions(pagination: Option<PageRequest>): QueryOptions
  {
    if pagination.Some? then QueryOptions(pagination.value.limit, pagination.value.offset) else QueryOptions(None, None)
  }

  /**
   * `buildPaginationOption`: starting from empty options, sets `limit` exactly when a
   * limit was supplied and `skip` (from the offset) exactly when an offset was supplied.
   */
  method BuildPaginationOption(pagination: Option<PageRequest>) returns (options: QueryOptions)
    ensures pagination.None? ==> options == QueryOptions(None, None)
    ensures options.limit.Some? <==> pagination.Some? && pagination.value.limit.Some?
    ensures options.skip.Some? <==> pagination.Some? && pagination.value.offset.Some?
    ensures options.limit.Some? ==> options.limit == pagination.value.limit
    ensures options.skip.Some? ==> options.skip == pagination.value.offset
    ensures options == PaginationOptions(pagination)
  {
    options := QueryOptions(None, None);
    if pagination.Some? && pagination.value.limit.Some? {
      options := options.(limit := pagination.value.limit);
    }
    if pagination.Some? && pagination.value.offset.Some? {
      options := options.(skip := pagination.value.offset);
    }
  }
}
