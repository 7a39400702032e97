/** Identifiers, the request context and JavaScript truthiness of optional values. */
module Common {
  import opened Wrappers
  import opened Enums

  /** Document identifiers (ObjectId strings) and tenant identifiers. */
  type Id = string

  /** The per-request context every service and repository receives. */
  datatype Context = Context(requestId: string, tenantId: Id, userId: Id, scopes: Option<seq<Scope>>)

  /** JavaScript truthiness of an optional string: supplied and not empty. */
  predicate Present(o: Option<string>) { o.Some? && o.value != "" }

  /** `list?.length` is truthy: the list is supplied and not empty. */
  predicate NonEmpty<T>(o: Option<seq<T>>) { o.Some? && |o.value| > 0 }

  /** `a ?? b` on an optional value. */
  function OrElse<T>(o: Option<T>, default: T): T { if o.Some? then o.value else default }
}
