/**
 * The tenants collection (models/tenant/tenant.repository.ts). It lives on the global
 * client: every tenant shares one model and one collection, outside per-tenant routing.
 */
module TenantRepo {
  import opened Wrappers
  import opened Common
  import opened Schema
  import opened MongoModel
  import opened EntityRepo

  /** The fields a new tenant is created from. */
  datatype TenantFields = TenantFields(name: string, domain: string, adminEmail: string, apiKey: string)

  /** `Partial<TenantType>`: the fields an update may set. */
  datatype TenantPatch = TenantPatch(
    name: Option<string>, domain: Option<string>, adminEmail: Option<string>, apiKey: Option<string>)

  /** `GetTenantInput`. */
  datatype GetTenantInput = GetTenantInput(tenantId: Option<Id>, domain: Option<string>)

  /** The document `createTenant` stores. */
  function NewTenant(fields: TenantFields, id: Id): (t: Tenant)
    ensures t.id == id && t.name == fields.name && t.domain == fields.domain
    ensures t.adminEmail == fields.adminEmail && t.apiKey == fields.apiKey
  {
    Tenant(id, fields.name, fields.domain, fields.adminEmail, fields.apiKey)
  }

  /** `$set` of the patch's supplied fields. */
  function Patched(t: Tenant, patch: TenantPatch): (r: Tenant)
    ensures r.id == t.id
    ensures r.name == OrElse(patch.name, t.name) && r.domain == OrElse(patch.domain, t.domain)
    ensures r.adminEmail == OrElse(patch.adminEmail, t.adminEmail) && r.apiKey == OrElse(patch.apiKey, t.apiKey)
  {
    t.(name := OrElse(patch.name, t.name), domain := OrElse(patch.domain, t.domain),
       adminEmail := OrElse(patch.adminEmail, t.adminEmail), apiKey := OrElse(patch.apiKey, t.apiKey))
  }

  /** The query `{ _id: id }` on tenants. */
  function HasTenantId(id: Id): Tenant -> bool
  {
    (t: Tenant) => t.id == id
  }

  /** The tenant with a given id, if any. */
  function TenantById(docs: seq<Tenant>, id: Id): (r: Option<Tenant>)
    ensures r.Some? ==> r.value in docs && r.value.id == id
    ensures r.None? ==> forall i :: 0 <= i < |docs| ==> docs[i].id != id
  {
    FirstMatch(docs, HasTenantId(id))
  }

  /** The collection after `$set`-ing a patch on the tenant with this id; unchanged when there is none. */
  function PatchById(docs: seq<Tenant>, id: Id, patch: TenantPatch): (r: seq<Tenant>)
    ensures |r| == |docs|
    ensures TenantById(docs, id).None? ==> r == docs
    ensures forall i :: 0 <= i < |docs| ==> r[i] == docs[i] || (docs[i].id == id && r[i] == Patched(docs[i], patch))
    ensures TenantById(docs, id).Some? ==> Patched(TenantById(docs, id).value, patch) in r
  {
    match FirstIndex(docs, HasTenantId(id))
    case None => docs
    case Some(i) => docs[i := Patched(docs[i], patch)]
  }

  /** Whether a tenant satisfies every key of a `getTenant` query. */
  predicate MatchesTenantInput(input: GetTenantInput, t: Tenant)
  {
    (Present(input.tenantId) ==> t.id == input.tenantId.value) &&
    (Present(input.domain) ==> t.domain == input.domain.value)
  }

  function TenantFilter(input: GetTenantInput): Tenant -> bool
  {
    (t: Tenant) => MatchesTenantInput(input, t)
  }

  /** The query `getTenant` builds: a key per supplied field. */
  function TenantQuery(input: GetTenantInput): (q: Query<Tenant>)
    ensures q.IsEmpty() <==> !Present(input.tenantId) && !Present(input.domain)
  {
    Query((if Present(input.tenantId) then 1 else 0) + (if Present(input.domain) then 1 else 0), TenantFilter(input))
  }

  /** What `getTenant` finds: the first tenant matching every supplied field; nothing when none is supplied. */
  function FindTenant(docs: seq<Tenant>, input: GetTenantInput): (r: Option<Tenant>)
    ensures r.Some? ==> r.value in docs && MatchesTenantInput(input, r.value)
    ensures !Present(input.tenantId) && !Present(input.domain) ==> r.None?
    ensures r.None? && (Present(input.tenantId) || Present(input.domain)) ==>
      forall i :: 0 <= i < |docs| ==> !MatchesTenantInput(input, docs[i])
  {
    if TenantQuery(input).IsEmpty() then None else FirstMatch(docs, TenantFilter(input))
  }

  /** The look-up by domain alone. */
  function ByDomain(domain: string): GetTenantInput
  {
    GetTenantInput(None, Some(domain))
  }

  /** The look-up by id alone. */
  function ById(tenantId: Id): GetTenantInput
  {
    GetTenantInput(Some(tenantId), None)
  }

  /** `TenantRepository`: the `tenants` collection on the global client. */
  class TenantRepository {
    const base: EntityBaseCrud<Tenant>

    /** Stored tenants have unique ids, `_id` is the id the base repository reads, and the model is global. */
    ghost predicate Valid()
      reads this, base
    {
      UniqueIds(base.docs, TenantId) && base.idOf == TenantId && base.useGlobalClient
    }

    function Tenants(): seq<Tenant>
      reads this, base
    {
      base.docs
    }

    constructor()
      ensures Valid() && Tenants() == []
      ensures base.className == "TenantType" && base.collection == "tenants"
      ensures base.cacheModel && base.useGlobalClient
      ensures fresh(base)
    {
      base := new EntityBaseCrud("TenantType", "tenants", Some(true), true, TenantId);
    }

    /** Every request, whatever its tenant, reaches the one tenant model registered under the bare class name. */
    lemma OneModelForAllTenants(t1: Id, t2: Id)
      requires Valid()
      ensures CachingKey(base.useGlobalClient, t1, base.className) == base.className
      ensures CachingKey(base.useGlobalClient, t1, base.className) == CachingKey(base.useGlobalClient, t2, base.className)
    {
    }

    /** `createTenant`: store the fields under a fresh id. */
    method CreateTenant(fields: TenantFields, newId: Id) returns (t: Tenant)
      requires Valid()
      requires newId != "" && newId !in Ids(Tenants(), TenantId)
      modifies base
      ensures Valid()
      ensures t == NewTenant(fields, newId)
      ensures Tenants() == old(Tenants()) + [t]
    {
      t := NewTenant(fields, newId);
      CreateKeepsIdsUnique(base.docs, t, TenantId);
      t := base.Create(t);
    }

    /** `getTenantById`. */
    method GetTenantById(id: Id) returns (r: Option<Tenant>)
      requires Valid()
      ensures r == TenantById(Tenants(), id)
    {
      FirstIndexAgrees(base.docs, base.HasId(id), HasTenantId(id));
      r := base.FindById(id);
    }

    /** `getTenant`: the first tenant matching every supplied field; null when none is supplied. */
    method GetTenant(input: GetTenantInput) returns (r: Option<Tenant>)
      ensures r == FindTenant(Tenants(), input)
    {
      r := base.FindOne(TenantQuery(input), None);
    }

    /**
     * `updateTenant`: `$set` the supplied fields on the tenant with this id and return it;
     * null, and nothing changed, when there is none.
     */
    method UpdateTenant(id: Id, patch: TenantPatch) returns (r: Option<Tenant>)
      requires Valid()
      modifies base
      ensures Valid()
      ensures Tenants() == PatchById(old(Tenants()), id, patch)
      ensures r.Some? <==> old(TenantById(Tenants(), id)).Some?
      ensures r.Some? ==> r.value == Patched(old(TenantById(Tenants(), id)).value, patch)
    {
      ghost var before := base.docs;
      FirstIndexAgrees(base.docs, base.HasId(id), HasTenantId(id));
      r := base.FindOneAndUpdate(Query(1, base.HasId(id)), (t: Tenant) => Patched(t, patch));
      if FirstIndex(before, base.HasId(id)).Some? {
        var i := FirstIndex(before, base.HasId(id)).value;
        ReplaceKeepsIdsUnique(before, i, Patched(before[i], patch), TenantId);
      }
    }
  }
}
