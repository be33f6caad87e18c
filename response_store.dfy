/**
 * The response store: the two caches of the request interceptor instance,
 * and the lazily created process-wide instance that both interceptors use.
 */
module ResponseStore {
  import opened Wrappers
  import opened Http
  import opened CacheKeys

  /** The contents of both caches at one moment. */
  datatype Caches = Caches(
    property: map<PropertyCacheKey, Response>,
    tenant: map<TenantCacheKey, Response>)

  /** The property cache and the tenant cache of one interceptor instance. */
  class Store {
    var propertyCache: map<PropertyCacheKey, Response>
    var tenantCache: map<TenantCacheKey, Response>

    /** A new instance starts with both caches empty. */
    constructor ()
      ensures propertyCache == map[] && tenantCache == map[]
    {
      propertyCache := map[];
      tenantCache := map[];
    }

    /** The current contents of both caches. */
    function View(): Caches
      reads this
    {
      Caches(propertyCache, tenantCache)
    }

    /** Cache.getIfPresent on the property cache: a pure lookup. */
    function GetPropertyIfPresent(key: PropertyCacheKey): Option<Response>
      reads this
    {
      if key in propertyCache then Some(propertyCache[key]) else None
    }

    /** Cache.getIfPresent on the tenant cache: a pure lookup. */
    function GetTenantIfPresent(key: TenantCacheKey): Option<Response>
      reads this
    {
      if key in tenantCache then Some(tenantCache[key]) else None
    }

    /** Cache.put on the property cache: replaces any entry for the key; nothing else changes. */
    method PutProperty(key: PropertyCacheKey, value: Response)
      modifies this
      ensures propertyCache == old(propertyCache)[key := value]
      ensures tenantCache == old(tenantCache)
    {
      propertyCache := propertyCache[key := value];
    }

    /** Cache.put on the tenant cache: replaces any entry for the key; nothing else changes. */
    method PutTenant(key: TenantCacheKey, value: Response)
      modifies this
      ensures tenantCache == old(tenantCache)[key := value]
      ensures propertyCache == old(propertyCache)
    {
      tenantCache := tenantCache[key := value];
    }
  }

  /** The static `instance` field of the request interceptor. */
  class Registry {
    var instance: Store?

    constructor ()
      ensures instance == null
    {
      instance := null;
    }

    /**
     * getInstance: creates the store, with empty caches, on the first call
     * and returns that same store on every later call.
     */
    method GetInstance() returns (store: Store)
      modifies this
      ensures instance == store
      ensures old(instance) != null ==> store == old(instance)
      ensures old(instance) == null ==> fresh(store) && store.View() == Caches(map[], map[])
    {
      if instance == null {
        instance := new Store();
      }
      store := instance;
    }
  }

  /** Two calls of getInstance return one and the same store, whose caches they leave as they were. */
  method SharedInstance(registry: Registry) returns (first: Store, second: Store)
    modifies registry
    ensures first == second == registry.instance
    ensures old(registry.instance) != null ==> first == old(registry.instance) && first.View() == old(first.View())
  {
    first := registry.GetInstance();
    second := registry.GetInstance();
  }
}
