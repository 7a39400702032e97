/**
 * Tenant routing of models (models/base/mongoModel.ts): every tenant's documents live in a
 * database named after the tenant, and compiled models are cached in typegoose's
 * process-wide registry under a key that includes the tenant unless the repository uses
 * the global client.
 */
module MongoModel {
  import opened Wrappers
  import opened Common

  /** A mongoose client: the process-wide default one or a connection handed in. */
  datatype Client = DefaultClient | GivenClient(name: string)

  /** A connection: a client's own database, or `client.useDb(dbName)`. */
  datatype Connection = Root(client: Client) | UseDb(client: Client, dbName: string)

  /** A compiled model, registered in the registry under `customName`. */
  datatype CompiledModel = CompiledModel(
    customName: string, className: string, collection: string, connection: Connection, timestamps: bool)

  /** What a repository asks for: its entity class, tenant, collection and caching flags. */
  datatype GetEntityMongoModelProps = GetEntityMongoModelProps(
    className: string, tenantId: Id, collection: string, cacheModel: bool, useGlobalClient: bool)

  /** `TenantMongoConnectionGetterService.getConnection`: the tenant's database on the given or default client. */
  function TenantConnection(tenantId: Id, connection: Option<Client>): (c: Connection)
    ensures c.UseDb? && c.dbName == tenantId
  {
    UseDb(OrElse(connection, DefaultClient), tenantId)
  }

  /** The cache key: the bare class name for the global client, `<tenant>_<class>` otherwise. */
  function CachingKey(useGlobalClient: bool, tenantId: Id, className: string): string
  {
    if useGlobalClient then className else tenantId + "_" + className
  }

  /** Two tenants never share a cache key for the same entity class. */
  lemma CachingKeyIsolatesTenants(t1: Id, t2: Id, className: string)
    requires t1 != t2
    ensures CachingKey(false, t1, className) != CachingKey(false, t2, className)
  {
    var k1, k2 := t1 + "_" + className, t2 + "_" + className;
    assert k1[..|t1|] == t1;
    assert k2[..|t2|] == t2;
    assert |k1| - |k2| == |t1| - |t2|;
  }

  /** One tenant's key for two different entity classes differs as well. */
  lemma CachingKeySeparatesClasses(tenantId: Id, c1: string, c2: string)
    requires c1 != c2
    ensures CachingKey(false, tenantId, c1) != CachingKey(false, tenantId, c2)
  {
    var p := tenantId + "_";
    assert (p + c1)[|p|..] == c1;
    assert (p + c2)[|p|..] == c2;
  }

  /** A tenant's key is never the key a global-client repository of the same class uses. */
  lemma TenantKeyNotGlobalKey(tenantId: Id, className: string)
    ensures CachingKey(false, tenantId, className) != CachingKey(true, tenantId, className)
  {
    assert |CachingKey(false, tenantId, className)| > |className|;
  }

  /** typegoose's model registry: a map from custom name to compiled model. */
  class ModelRegistry {
    var models: map<string, CompiledModel>

    /** Every model is registered under its own custom name. */
    ghost predicate Valid() reads this {
      forall k :: k in models ==> models[k].customName == k
    }

    constructor()
      ensures Valid() && models == map[]
    {
      models := map[];
    }
  }

  /** `TenantInfoMongoModelGetterService`: resolves one repository's model for one tenant. */
  class TenantInfoMongoModelGetterService {
    const props: GetEntityMongoModelProps
    const useCachedModel: bool

    constructor(props: GetEntityMongoModelProps)
      ensures this.props == props && useCachedModel == props.cacheModel
    {
      this.props := props;
      this.useCachedModel := props.cacheModel;
    }

    /** `getConnection`: the tenant's database on the given client, or on the default one. */
    function GetConnection(connection: Option<Client>): Connection
    {
      TenantConnection(props.tenantId, connection)
    }

    function CreateModelCachingKey(useGlobalClient: bool): string
    {
      CachingKey(useGlobalClient, props.tenantId, props.className)
    }

    /** The model `getModelForClass` compiles when the key is not cached. */
    function NewModel(key: string): (m: CompiledModel)
      ensures m.customName == key
      ensures props.useGlobalClient ==> m.connection == Root(DefaultClient)
      ensures !props.useGlobalClient ==> m.connection == UseDb(DefaultClient, props.tenantId)
    {
      var connection := if props.useGlobalClient then Root(DefaultClient) else TenantConnection(props.tenantId, None);
      CompiledModel(key, props.className, props.collection, connection, true)
    }

    /**
     * `getEntityMongoModel`: with caching off, any registered model under the key is
     * dropped first; a registered model is returned as is; otherwise a new model bound
     * to the tenant's database (or the global connection) is compiled and registered.
     */
    method GetEntityMongoModel(registry: ModelRegistry) returns (m: CompiledModel)
      requires registry.Valid()
      modifies registry
      ensures registry.Valid()
      ensures var key := CreateModelCachingKey(props.useGlobalClient);
        m.customName == key &&
        registry.models == old(registry.models)[key := m] &&
        (if useCachedModel && key in old(registry.models) then m == old(registry.models)[key] else m == NewModel(key))
    {
      var key := CreateModelCachingKey(props.useGlobalClient);
      if !useCachedModel {
        if key in registry.models {
          registry.models := registry.models - {key};
        }
      }
      if key in registry.models {
        m := registry.models[key];
        assert registry.models == registry.models[key := m];
        return;
      }
      m := NewModel(key);
      registry.models := registry.models[key := m];
    }
  }
}
