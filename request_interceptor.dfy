/**
 * The pre-request filter: answers a recognised GET from the cache when the
 * response is there and lets every other request through.
 */
module RequestInterceptor {
  import opened Wrappers
  import opened Http
  import opened Strings
  import opened Patterns
  import opened CacheKeys
  import opened ResponseStore

  /** The response definition the filter builds from a cached response: its body, status and headers. */
  function DefinitionOf(cached: Response): ResponseDefinition {
    ResponseDefinition(cached.body, cached.status, cached.headers)
  }

  /** What the filter decides for a request, given the contents of both caches. */
  function FilterOutcome(request: Request, caches: Caches): FilterAction {
    if request.verb == GET && Contains(request.url, USER_SERVICE) then
      var encodingType := EncodingType(request.acceptEncoding);
      match Classify(request.url)
      case Property(tenantId, propertyId) =>
        var key := PropertyCacheKey(tenantId, propertyId, encodingType);
        if key in caches.property then StopWith(DefinitionOf(caches.property[key])) else ContinueWith(request)
      case Tenant(tenantId) =>
        var key := TenantCacheKey(tenantId, encodingType);
        if key in caches.tenant then StopWith(DefinitionOf(caches.tenant[key])) else ContinueWith(request)
      case Unmanaged => ContinueWith(request)
    else
      ContinueWith(request)
  }

  /**
   * RequestInterceptor.filter, step by step: the method and marker test,
   * matches() and then find() for the groups, the encoding token, and a
   * getIfPresent on the matching cache. It has no modifies clause: the
   * caches are only read.
   */
  method Filter(store: Store, request: Request) returns (action: FilterAction)
    ensures action == FilterOutcome(request, store.View())
  {
    if request.verb == GET && Contains(request.url, USER_SERVICE) {
      var propertyMatch := MatchProperty(request.url);
      if propertyMatch.Some? {
        var tenantId, propertyId := "", "";
        var found := FindProperty(request.url);
        if found.Some? {
          tenantId, propertyId := found.value.0, found.value.1;
        }
        var encodingHeader := request.acceptEncoding;
        var encodingType;
        if Contains(encodingHeader, GZIP) {
          encodingType := GZIP;
        } else {
          encodingType := encodingHeader;
        }
        FindAfterMatchProperty(request.url);
        var property := store.GetPropertyIfPresent(PropertyCacheKey(tenantId, propertyId, encodingType));
        if property.Some? {
          return StopWith(ResponseDefinition(property.value.body, property.value.status, property.value.headers));
        }
      } else {
        var tenantMatch := MatchTenant(request.url);
        if tenantMatch.Some? {
          var tenantId := "";
          var found := FindTenant(request.url);
          if found.Some? {
            tenantId := found.value;
          }
          var encodingHeader := request.acceptEncoding;
          var encodingType;
          if Contains(encodingHeader, GZIP) {
            encodingType := GZIP;
          } else {
            encodingType := encodingHeader;
          }
          FindAfterMatchTenant(request.url);
          var tenant := store.GetTenantIfPresent(TenantCacheKey(tenantId, encodingType));
          if tenant.Some? {
            return StopWith(ResponseDefinition(tenant.value.body, tenant.value.status, tenant.value.headers));
          }
        }
      }
    }
    return ContinueWith(request);
  }

  /** A request that is not a GET, or whose URL lacks the service marker, always continues unchanged. */
  lemma FilterPassesThrough(request: Request, caches: Caches)
    requires request.verb != GET || !Contains(request.url, USER_SERVICE)
    ensures FilterOutcome(request, caches) == ContinueWith(request)
  {
  }

  /** An unmanaged URL always continues unchanged, whatever the caches hold. */
  lemma FilterUnmanaged(request: Request, caches: Caches)
    requires Classify(request.url) == Unmanaged
    ensures FilterOutcome(request, caches) == ContinueWith(request)
  {
  }

  /**
   * A GET of a property URL looks up the key of its two identifiers and its
   * encoding token: on a hit it stops with exactly the cached body, status
   * and headers, on a miss it continues with the request.
   */
  lemma FilterPropertyPath(request: Request, caches: Caches, tenantId: string, propertyId: string)
    requires request.verb == GET
    requires IsDigits(tenantId) && IsDigits(propertyId) && request.url == PropertyUrl(tenantId, propertyId)
    ensures var key := PropertyCacheKey(tenantId, propertyId, EncodingType(request.acceptEncoding));
      && (key in caches.property ==>
            FilterOutcome(request, caches)
            == StopWith(ResponseDefinition(caches.property[key].body, caches.property[key].status,
                                           caches.property[key].headers)))
      && (key !in caches.property ==> FilterOutcome(request, caches) == ContinueWith(request))
  {
    ClassifyProperty(request.url, tenantId, propertyId);
    ManagedMentionsUserService(request.url);
  }

  /**
   * A GET of a tenant URL looks up the key of its identifier and its
   * encoding token: a hit stops with the cached response, a miss continues.
   */
  lemma FilterTenantPath(request: Request, caches: Caches, tenantId: string)
    requires request.verb == GET
    requires IsDigits(tenantId) && request.url == TenantUrl(tenantId)
    ensures var key := TenantCacheKey(tenantId, EncodingType(request.acceptEncoding));
      && (key in caches.tenant ==>
            FilterOutcome(request, caches)
            == StopWith(ResponseDefinition(caches.tenant[key].body, caches.tenant[key].status,
                                           caches.tenant[key].headers)))
      && (key !in caches.tenant ==> FilterOutcome(request, caches) == ContinueWith(request))
  {
    ClassifyTenant(request.url, tenantId);
    ManagedMentionsUserService(request.url);
  }

  /** The filter never invents a response: it continues with the request or answers with a cached one. */
  lemma FilterAnswersFromCache(request: Request, caches: Caches)
    ensures || FilterOutcome(request, caches) == ContinueWith(request)
            || exists cached :: (cached in caches.property.Values || cached in caches.tenant.Values)
                                && FilterOutcome(request, caches) == StopWith(DefinitionOf(cached))
  {
    if FilterOutcome(request, caches) != ContinueWith(request) {
      var encodingType := EncodingType(request.acceptEncoding);
      match Classify(request.url)
      case Property(tenantId, propertyId) =>
        var key := PropertyCacheKey(tenantId, propertyId, encodingType);
        assert caches.property[key] in caches.property.Values;
      case Tenant(tenantId) =>
        var key := TenantCacheKey(tenantId, encodingType);
        assert caches.tenant[key] in caches.tenant.Values;
    }
  }

  /** Every entry of `smaller` is an entry of `larger`: what eviction may leave behind. */
  ghost predicate SubCaches(smaller: Caches, larger: Caches) {
    && (forall k :: k in smaller.property ==> k in larger.property && smaller.property[k] == larger.property[k])
    && (forall k :: k in smaller.tenant ==> k in larger.tenant && smaller.tenant[k] == larger.tenant[k])
  }

  /** Losing entries (to expiry or to the size bound) only ever turns a hit into a pass-through. */
  lemma FilterUnderEviction(request: Request, caches: Caches, evicted: Caches)
    requires SubCaches(evicted, caches)
    ensures || FilterOutcome(request, evicted) == FilterOutcome(request, caches)
            || FilterOutcome(request, evicted) == ContinueWith(request)
  {
  }
}
