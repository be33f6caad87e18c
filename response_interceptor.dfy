/**
 * The post-response capture: stores a successful proxied response to a
 * recognised GET or PUT under the key the filter will look up.
 */
module ResponseInterceptor {
  import opened Http
  import opened Strings
  import opened Patterns
  import opened CacheKeys
  import opened ResponseStore
  import opened RequestInterceptor

  /** The statuses that are captured. */
  predicate Succeeded(status: int) {
    status == 200 || status == 201
  }

  /** The caches after capturing `response` to `request`. */
  function Capture(request: Request, response: Response, caches: Caches): Caches {
    if && response.fromProxy
       && (request.verb == GET || request.verb == PUT)
       && Contains(request.url, USER_SERVICE)
       && Succeeded(response.status)
    then
      var encodingType := EncodingType(request.acceptEncoding);
      match Classify(request.url)
      case Property(tenantId, propertyId) =>
        caches.(property := caches.property[PropertyCacheKey(tenantId, propertyId, encodingType) := response])
      case Tenant(tenantId) =>
        caches.(tenant := caches.tenant[TenantCacheKey(tenantId, encodingType) := response])
      case Unmanaged => caches
    else
      caches
  }

  /**
   * ResponseInterceptor.transform, step by step: the proxy, method and
   * marker gates, matches() and then find() for the groups, the status
   * test, the encoding token and a put into the matching cache. It returns
   * the response it was given.
   */
  method Transform(store: Store, request: Request, response: Response) returns (result: Response)
    modifies store
    ensures result == response
    ensures store.View() == Capture(request, response, old(store.View()))
  {
    if response.fromProxy {
      if (request.verb == GET || request.verb == PUT) && Contains(request.url, USER_SERVICE) {
        var propertyMatch := MatchProperty(request.url);
        if propertyMatch.Some? {
          var tenantId, propertyId := "", "";
          var found := FindProperty(request.url);
          if found.Some? {
            tenantId, propertyId := found.value.0, found.value.1;
          }
          if response.status == 200 || response.status == 201 {
            var encodingHeader := request.acceptEncoding;
            var encodingType;
            if Contains(encodingHeader, GZIP) {
              encodingType := GZIP;
            } else {
              encodingType := encodingHeader;
            }
            FindAfterMatchProperty(request.url);
            store.PutProperty(PropertyCacheKey(tenantId, propertyId, encodingType), response);
          }
        } else {
          var tenantMatch := MatchTenant(request.url);
          if tenantMatch.Some? {
            var tenantId := "";
            var found := FindTenant(request.url);
            if found.Some? {
              tenantId := found.value;
            }
            if response.status == 200 || response.status == 201 {
              var encodingHeader := request.acceptEncoding;
              var encodingType;
              if Contains(encodingHeader, GZIP) {
                encodingType := GZIP;
              } else {
                encodingType := encodingHeader;
              }
              FindAfterMatchTenant(request.url);
              store.PutTenant(TenantCacheKey(tenantId, encodingType), response);
            }
          }
        }
      }
    }
    result := response;
  }

  /** A response that did not come from the proxied backend is never stored. */
  lemma CaptureSkipsStubResponses(request: Request, response: Response, caches: Caches)
    requires !response.fromProxy
    ensures Capture(request, response, caches) == caches
  {
  }

  /** A request that is neither GET nor PUT, or whose URL lacks the service marker, stores nothing. */
  lemma CaptureSkipsOtherRequests(request: Request, response: Response, caches: Caches)
    requires (request.verb != GET && request.verb != PUT) || !Contains(request.url, USER_SERVICE)
    ensures Capture(request, response, caches) == caches
  {
  }

  /** A status other than 200 or 201 stores nothing, even for a recognised URL. */
  lemma CaptureSkipsOtherStatuses(request: Request, response: Response, caches: Caches)
    requires !Succeeded(response.status)
    ensures Capture(request, response, caches) == caches
  {
  }

  /** An unmanaged URL stores nothing. */
  lemma CaptureSkipsUnmanaged(request: Request, response: Response, caches: Caches)
    requires Classify(request.url) == Unmanaged
    ensures Capture(request, response, caches) == caches
  {
  }

  /**
   * A successful proxied GET or PUT of a property URL maps the key of its
   * identifiers and encoding token to the response; every other property
   * entry and the whole tenant cache stay as they were.
   */
  lemma CapturePropertyPath(request: Request, response: Response, caches: Caches, tenantId: string, propertyId: string)
    requires response.fromProxy && (request.verb == GET || request.verb == PUT) && Succeeded(response.status)
    requires IsDigits(tenantId) && IsDigits(propertyId) && request.url == PropertyUrl(tenantId, propertyId)
    ensures var key := PropertyCacheKey(tenantId, propertyId, EncodingType(request.acceptEncoding));
      var after := Capture(request, response, caches);
      && key in after.property && after.property[key] == response
      && after.property.Keys == caches.property.Keys + {key}
      && (forall k :: k in caches.property && k != key ==> after.property[k] == caches.property[k])
      && after.tenant == caches.tenant
  {
    ClassifyProperty(request.url, tenantId, propertyId);
    ManagedMentionsUserService(request.url);
  }

  /**
   * A successful proxied GET or PUT of a tenant URL maps the key of its
   * identifier and encoding token to the response; every other tenant entry
   * and the whole property cache stay as they were.
   */
  lemma CaptureTenantPath(request: Request, response: Response, caches: Caches, tenantId: string)
    requires response.fromProxy && (request.verb == GET || request.verb == PUT) && Succeeded(response.status)
    requires IsDigits(tenantId) && request.url == TenantUrl(tenantId)
    ensures var key := TenantCacheKey(tenantId, EncodingType(request.acceptEncoding));
      var after := Capture(request, response, caches);
      && key in after.tenant && after.tenant[key] == response
      && after.tenant.Keys == caches.tenant.Keys + {key}
      && (forall k :: k in caches.tenant && k != key ==> after.tenant[k] == caches.tenant[k])
      && after.property == caches.property
  {
    ClassifyTenant(request.url, tenantId);
    ManagedMentionsUserService(request.url);
  }

  /**
   * Key agreement: after a successful proxied GET or PUT of a managed URL is
   * captured, a GET of the same URL whose header gives the same encoding
   * token stops with that response's body, status and headers, whatever the
   * caches held before (no eviction in between).
   */
  lemma KeyAgreement(lookup: Request, captured: Request, response: Response, caches: Caches)
    requires response.fromProxy && (captured.verb == GET || captured.verb == PUT) && Succeeded(response.status)
    requires Classify(captured.url) != Unmanaged
    requires lookup.verb == GET && lookup.url == captured.url
    requires EncodingType(lookup.acceptEncoding) == EncodingType(captured.acceptEncoding)
    ensures FilterOutcome(lookup, Capture(captured, response, caches))
            == StopWith(ResponseDefinition(response.body, response.status, response.headers))
  {
    ManagedMentionsUserService(captured.url);
  }

  /**
   * A capture changes what the filter answers only for a GET of the same URL
   * with the same encoding token, and then the answer is the captured response.
   */
  lemma CaptureAffectsOnlyItsKey(lookup: Request, captured: Request, response: Response, caches: Caches)
    requires FilterOutcome(lookup, Capture(captured, response, caches)) != FilterOutcome(lookup, caches)
    ensures lookup.verb == GET && lookup.url == captured.url
    ensures EncodingType(lookup.acceptEncoding) == EncodingType(captured.acceptEncoding)
    ensures FilterOutcome(lookup, Capture(captured, response, caches)) == StopWith(DefinitionOf(response))
  {
    var after := Capture(captured, response, caches);
    assert after != caches;
    assert Classify(captured.url) != Unmanaged;
    assert lookup.verb == GET && Classify(lookup.url) != Unmanaged;
    assert Classify(captured.url) == Classify(lookup.url);
    ClassifyInjective(lookup.url, captured.url);
  }

  /** Storing twice under one key keeps only the last write. */
  lemma CaptureLastWriteWins(first: Request, second: Request, earlier: Response, later: Response, caches: Caches)
    requires second.url == first.url
    requires EncodingType(second.acceptEncoding) == EncodingType(first.acceptEncoding)
    requires later.fromProxy && (second.verb == GET || second.verb == PUT) && Succeeded(later.status)
    ensures Capture(second, later, Capture(first, earlier, caches)) == Capture(second, later, caches)
  {
  }

  /** GET /user-service/tenant/tenants/42 with gzip: a miss, a capture of 200 {"id":42}, then a hit. */
  lemma TenantScenario()
    ensures var get := Request(GET, "/user-service/tenant/tenants/42", "gzip");
      var body: Bytes := [0x7b, 0x22, 0x69, 0x64, 0x22, 0x3a, 0x34, 0x32, 0x7d];
      var backend := Response(200, [], body, true);
      var empty := Caches(map[], map[]);
      && FilterOutcome(get, empty) == ContinueWith(get)
      && Capture(get, backend, empty) == Caches(map[], map[TenantCacheKey("42", "gzip") := backend])
      && FilterOutcome(get, Capture(get, backend, empty)) == StopWith(ResponseDefinition(body, 200, []))
  {
    var get := Request(GET, "/user-service/tenant/tenants/42", "gzip");
    var body: Bytes := [0x7b, 0x22, 0x69, 0x64, 0x22, 0x3a, 0x34, 0x32, 0x7d];
    var backend := Response(200, [], body, true);
    var empty := Caches(map[], map[]);
    assert TENANT_PREFIX == "/user-service/tenant/tenants/";
    assert get.url == TenantUrl("42");
    assert Contains(GZIP, GZIP);
    CaptureTenantPath(get, backend, empty, "42");
    FilterTenantPath(get, Capture(get, backend, empty), "42");
  }

  /** The same request answered 404: nothing is stored and the next GET still misses. */
  lemma NotFoundScenario(body: Bytes)
    ensures var get := Request(GET, "/user-service/tenant/tenants/42", "gzip");
      var backend := Response(404, [], body, true);
      var empty := Caches(map[], map[]);
      && Capture(get, backend, empty) == empty
      && FilterOutcome(get, Capture(get, backend, empty)) == ContinueWith(get)
  {
  }

  /** A PUT of a property URL answered 201 is stored, and a later GET with a gzip list hits it. */
  lemma PropertyPutScenario(tenantId: string, propertyId: string, body: Bytes)
    requires IsDigits(tenantId) && IsDigits(propertyId)
    ensures var put := Request(PUT, PropertyUrl(tenantId, propertyId), "gzip");
      var get := Request(GET, PropertyUrl(tenantId, propertyId), "gzip, deflate");
      var backend := Response(201, [], body, true);
      FilterOutcome(get, Capture(put, backend, Caches(map[], map[])))
      == StopWith(ResponseDefinition(body, 201, []))
  {
    var url := PropertyUrl(tenantId, propertyId);
    ClassifyProperty(url, tenantId, propertyId);
    EncodingTypeExamples();
    KeyAgreement(Request(GET, url, "gzip, deflate"), Request(PUT, url, "gzip"),
                 Response(201, [], body, true), Caches(map[], map[]));
  }

  /**
   * The two phases through the one shared instance: capturing a successful
   * proxied response and then filtering a GET of the same URL and header
   * serves that response from the cache.
   */
  method CaptureThenFilter(registry: Registry, captured: Request, response: Response, lookup: Request)
    returns (delivered: Response, action: FilterAction)
    requires response.fromProxy && (captured.verb == GET || captured.verb == PUT) && Succeeded(response.status)
    requires Classify(captured.url) != Unmanaged
    requires lookup.verb == GET && lookup.url == captured.url && lookup.acceptEncoding == captured.acceptEncoding
    modifies registry, registry.instance
    ensures delivered == response
    ensures action == StopWith(ResponseDefinition(response.body, response.status, response.headers))
  {
    var store := registry.GetInstance();
    ghost var before := store.View();
    delivered := Transform(store, captured, response);
    var again := registry.GetInstance();
    action := Filter(again, lookup);
    KeyAgreement(lookup, captured, response, before);
  }
}
