/**
 * Tenant provisioning (services/tenant/tenant.service.ts): a tenant is created only for
 * a domain no tenant holds yet, with its API key stored encrypted and handed back in
 * plain text once, together with an admin user in the new tenant's users collection.
 * The key generator's fresh value and the encryption are parameters.
 */
module TenantService {
  import opened Wrappers
  import opened Enums
  import opened Common
  import opened Schema
  import opened EntityRepo
  import opened TenantRepo
  import UserRepo

  const DomainTaken: string := "Tenant with this domain already exists"
  const TenantMissing: string := "Tenant does not exist"
  const AdminName: string := "Admin User"

  /** `CreateTenantInput`. */
  datatype CreateTenantInput = CreateTenantInput(name: string, adminEmail: string, domain: string, apiKey: Option<string>)

  /** `systemContext`: acting inside a tenant as the given user, or as the tenant itself. */
  function SystemContext(tenantId: Id, userId: Option<Id>, requestId: string): (c: Context)
    ensures c.tenantId == tenantId && c.requestId == requestId && c.scopes.None?
    ensures userId.Some? ==> c.userId == userId.value
    ensures userId.None? ==> c.userId == tenantId
  {
    Context(requestId, tenantId, OrElse(userId, tenantId), None)
  }

  /** `generateApiKey`'s plain key: the caller's key, or a freshly generated one. */
  function PlainKey(input: CreateTenantInput, generated: string): (k: string)
    ensures input.apiKey.Some? ==> k == input.apiKey.value
    ensures input.apiKey.None? ==> k == generated
  {
    OrElse(input.apiKey, generated)
  }

  /** The admin user every new tenant gets. */
  function AdminUserInput(input: CreateTenantInput): (u: UserRepo.CreateUserInput)
    ensures u.emailId == input.adminEmail && u.name == Some(AdminName)
    ensures u.roles == Some([Admin]) && u.status.None?
  {
    UserRepo.CreateUserInput(Some(AdminName), input.adminEmail, None, Some([Admin]))
  }

  /** The tenant document stored: the input with the encrypted key. */
  function StoredTenant(input: CreateTenantInput, id: Id, generated: string, encrypt: string -> string): (t: Tenant)
    ensures t.id == id && t.name == input.name && t.domain == input.domain && t.adminEmail == input.adminEmail
    ensures t.apiKey == encrypt(PlainKey(input, generated))
  {
    NewTenant(TenantFields(input.name, input.domain, input.adminEmail, encrypt(PlainKey(input, generated))), id)
  }

  /** No two stored tenants share a (non-empty) domain: the rule `createTenant` enforces. */
  ghost predicate DomainsUnique(docs: seq<Tenant>)
  {
    forall i, j :: 0 <= i < j < |docs| && docs[i].domain != "" ==> docs[i].domain != docs[j].domain
  }

  /** Whether `createTenant`'s domain check refuses this domain. */
  predicate DomainIsTaken(docs: seq<Tenant>, domain: string)
  {
    FindTenant(docs, ByDomain(domain)).Some?
  }

  /** The domain check refuses exactly the non-empty domains some tenant already holds. */
  lemma DomainTakenIff(docs: seq<Tenant>, domain: string)
    ensures DomainIsTaken(docs, domain) <==> domain != "" && exists i :: 0 <= i < |docs| && docs[i].domain == domain
  {
    if domain != "" && exists i :: 0 <= i < |docs| && docs[i].domain == domain {
      var i :| 0 <= i < |docs| && docs[i].domain == domain;
      assert MatchesTenantInput(ByDomain(domain), docs[i]);
    }
  }

  /** Appending a tenant whose domain passed the check keeps the domains unique. */
  lemma AcceptedDomainKeepsUnique(docs: seq<Tenant>, t: Tenant)
    requires DomainsUnique(docs)
    requires !DomainIsTaken(docs, t.domain)
    ensures DomainsUnique(docs + [t])
  {
    DomainTakenIff(docs, t.domain);
    var all := docs + [t];
    forall i, j | 0 <= i < j < |all| && all[i].domain != ""
      ensures all[i].domain != all[j].domain
    {
      if j == |docs| {
        assert all[i] == docs[i];
      } else {
        assert all[i] == docs[i] && all[j] == docs[j];
      }
    }
  }

  /** `getTenant`. */
  method GetTenant(repo: TenantRepository, input: GetTenantInput) returns (r: Option<Tenant>)
    ensures r == FindTenant(repo.Tenants(), input)
  {
    r := repo.GetTenant(input);
  }

  /**
   * `createTenant`: a domain some tenant already holds throws "Tenant with this domain
   * already exists" and stores nothing. Otherwise the tenant is stored with the encrypted
   * key, the admin user is created in the new tenant (as the tenant itself) and the
   * tenant is returned carrying the plain key. `users` is the users collection the new
   * tenant's context routes to.
   */
  method CreateTenant(tenants: TenantRepository, users: UserRepo.UserRepository, input: CreateTenantInput,
                      newTenantId: Id, newUserId: Id, freshId: Id, generatedKey: string,
                      encrypt: string -> string, requestId: string)
    returns (r: Result<Tenant>)
    requires tenants.Valid() && users.Valid()
    requires newTenantId != "" && newTenantId !in Ids(tenants.Tenants(), TenantId)
    requires newUserId != "" && newUserId !in Ids(users.Users(), UserId)
    modifies tenants.base, users.base
    ensures tenants.Valid() && users.Valid()
    ensures old(DomainIsTaken(tenants.Tenants(), input.domain)) ==>
      r == Err(Failure(DomainTaken)) && tenants.Tenants() == old(tenants.Tenants()) && users.Users() == old(users.Users())
    ensures !old(DomainIsTaken(tenants.Tenants(), input.domain)) ==>
      && tenants.Tenants() == old(tenants.Tenants()) + [StoredTenant(input, newTenantId, generatedKey, encrypt)]
      && r == Ok(StoredTenant(input, newTenantId, generatedKey, encrypt).(apiKey := PlainKey(input, generatedKey)))
      && users.Users() == old(users.Users()) +
           [UserRepo.NewUser(AdminUserInput(input), SystemContext(newTenantId, None, requestId), newUserId, freshId)]
    ensures DomainsUnique(old(tenants.Tenants())) ==> DomainsUnique(tenants.Tenants())
  {
    var existing := tenants.GetTenant(ByDomain(input.domain));
    if existing.Some? {
      return Err(Failure(DomainTaken));
    }
    var plain := PlainKey(input, generatedKey);
    var stored := StoredTenant(input, newTenantId, generatedKey, encrypt);
    if DomainsUnique(tenants.Tenants()) {
      AcceptedDomainKeepsUnique(tenants.Tenants(), stored);
    }
    var created := tenants.CreateTenant(TenantFields(input.name, input.domain, input.adminEmail, encrypt(plain)), newTenantId);
    created := created.(apiKey := plain);
    var system := SystemContext(created.id, None, requestId);
    var admin := users.CreateUser(AdminUserInput(input), system, newUserId, freshId);
    r := Ok(created);
  }

  /** The admin user of a new tenant acts as the tenant: both audit ids are the tenant's id. */
  lemma AdminCreatedByTenant(input: CreateTenantInput, tenantId: Id, newUserId: Id, freshId: Id, requestId: string)
    requires tenantId != "" && tenantId != "null"
    ensures var u := UserRepo.NewUser(AdminUserInput(input), SystemContext(tenantId, None, requestId), newUserId, freshId);
      u.createdById == tenantId && u.updatedById == tenantId && u.status == Active && u.roles == [Admin]
  {
  }

  /**
   * `regenerateApiKey`: an unknown tenant throws "Tenant does not exist"; otherwise the
   * stored key becomes the encryption of a fresh key, which is returned in plain text.
   */
  method RegenerateApiKey(tenants: TenantRepository, tenantId: Id, generatedKey: string, encrypt: string -> string)
    returns (r: Result<string>)
    requires tenants.Valid()
    modifies tenants.base
    ensures tenants.Valid()
    ensures old(FindTenant(tenants.Tenants(), ById(tenantId))).None? ==>
      r == Err(Failure(TenantMissing)) && tenants.Tenants() == old(tenants.Tenants())
    ensures old(FindTenant(tenants.Tenants(), ById(tenantId))).Some? ==>
      r == Ok(generatedKey) &&
      tenants.Tenants() == PatchById(old(tenants.Tenants()), tenantId, TenantPatch(None, None, None, Some(encrypt(generatedKey))))
    ensures DomainsUnique(old(tenants.Tenants())) ==> DomainsUnique(tenants.Tenants())
  {
    var tenant := tenants.GetTenant(ById(tenantId));
    if tenant.None? {
      return Err(Failure(TenantMissing));
    }
    ghost var before := tenants.Tenants();
    var patch := TenantPatch(None, None, None, Some(encrypt(generatedKey)));
    var updated := tenants.UpdateTenant(tenantId, patch);
    KeyPatchKeepsDomains(before, tenantId, patch);
    r := Ok(generatedKey);
  }

  /** A patch that sets only the key leaves every domain where it was. */
  lemma KeyPatchKeepsDomains(docs: seq<Tenant>, id: Id, patch: TenantPatch)
    requires patch.domain.None?
    ensures forall i :: 0 <= i < |docs| ==> PatchById(docs, id, patch)[i].domain == docs[i].domain
    ensures DomainsUnique(docs) ==> DomainsUnique(PatchById(docs, id, patch))
  {
    var after := PatchById(docs, id, patch);
    assert forall i :: 0 <= i < |docs| ==> after[i].domain == docs[i].domain;
  }
}
