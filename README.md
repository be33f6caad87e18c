# Interceptor response cache, modelled in Dafny

This project models the two WireMock extensions of the repository: a
request filter and a response transformer that together form a two-phase
response cache in front of a proxied backend.

- **URL classifier** (`Patterns`). `PROPERTY_PATTERN`
  (`/user-service/property/tenants/([0-9]+)/properties/([0-9]+)`) and
  `TENANT_PATTERN` (`/user-service/tenant/tenants/([0-9]+)`) are written out
  as greedy scanners over the literal parts and the digit runs. No general
  regex engine is modelled. The scanners model `Matcher.matches()`
  (`MatchProperty`, `MatchTenant`) and `Matcher.find()` on a fresh matcher
  (`FindProperty`, `FindTenant`, the leftmost start with a match).
  `Classify` tries the property pattern first and then the tenant pattern.
- **Key builder** (`CacheKeys`). `EncodingType` is the Accept-Encoding
  token: `"gzip"` when the header contains `"gzip"`, else the header
  itself. `PropertyCacheKey` and `TenantCacheKey` are datatypes. Their
  `equals` compare field by field, and that is value equality.
- **Response store** (`ResponseStore`). `Store` is a class holding the
  two caches as maps. `Registry` models the static `instance` field and
  `getInstance`.
- **Pre-request filter** (`RequestInterceptor`). `FilterOutcome` is the
  decision as a function of the request and the caches. `Filter` is the
  step-by-step method, proved equal to it. `Filter` has no `modifies`
  clause, so it cannot change either cache.
- **Post-response capture** (`ResponseInterceptor`). `Capture` gives the
  caches after a response. `Transform` is the step-by-step method; it
  returns its argument and leaves the store equal to `Capture` of the old
  contents.

The two phases take the store as a parameter. In the source each phase
calls `getInstance()` itself. `CaptureThenFilter` shows both phases going
through the one instance.

Three behaviours of the code are easy to miss. The model keeps the first;
the other two are listed under "Left out":
- Matching uses the URL as the server reports it, query string included.
  So `/user-service/tenant/tenants/42?lang=en` is unmanaged
  (`QueryStringIsUnmanaged`).
- The code calls `contains` on the Accept-Encoding value without a null
  check (RequestInterceptor.java lines 61 and 84, ResponseInterceptor.java
  lines 45 and 67).
- No exception is caught around classification or key building. So the
  NullPointerException from that `contains` escapes `filter` or
  `transform`, and the request fails instead of passing through.

## Model

| member | source | states |
|---|---|---|
| `Strings.Contains` | src/main/java/com/agilysys/qa/interceptors/RequestInterceptor.java:61 | `String.contains`: whether the second text occurs in the first, the empty text occurring everywhere; `ContainsIff` proves it equal to the positional definition |
| `Strings.ContainsIff` | src/main/java/com/agilysys/qa/interceptors/RequestInterceptor.java:45 | the substring test used for the marker and for gzip holds exactly when the text occurs at some index |
| `Strings.SplitDigits` | src/main/java/com/agilysys/qa/interceptors/RequestInterceptor.java:22 | a greedy `[0-9]*` run: the run and the rest rebuild the input, the run is all digits, and the rest does not start with a digit |
| `Strings.SplitDigitsOf` | src/main/java/com/agilysys/qa/interceptors/RequestInterceptor.java:22 | a digit run followed by a non-digit or by nothing is split back into exactly those two parts |
| `Patterns.ScanProperty` | src/main/java/com/agilysys/qa/interceptors/RequestInterceptor.java:21-22 | the property pattern tried at one start position: its two greedy digit groups and the length of the matched text, or no match |
| `Patterns.ScanTenant` | src/main/java/com/agilysys/qa/interceptors/RequestInterceptor.java:23 | the tenant pattern tried at one start position: its greedy digit group and the length of the matched text, or no match |
| `Patterns.MatchProperty` | src/main/java/com/agilysys/qa/interceptors/RequestInterceptor.java:49 | `matches()` on the property pattern: a scan from the start that consumes the whole URL, with its two groups |
| `Patterns.MatchTenant` | src/main/java/com/agilysys/qa/interceptors/RequestInterceptor.java:74 | `matches()` on the tenant pattern: a scan from the start that consumes the whole URL, with its group |
| `Patterns.FindProperty` | src/main/java/com/agilysys/qa/interceptors/RequestInterceptor.java:51-57 | `find()` on a fresh property matcher: the groups of the scan at the leftmost start position that matches, or none |
| `Patterns.FindTenant` | src/main/java/com/agilysys/qa/interceptors/RequestInterceptor.java:75-79 | `find()` on a fresh tenant matcher: the group of the scan at the leftmost start position that matches, or none |
| `Patterns.Classify` | src/main/java/com/agilysys/qa/interceptors/RequestInterceptor.java:49-74 | the property pattern is tried first and the tenant pattern only when it fails; anything else is unmanaged |
| `Patterns.ScanPropertyOf` | src/main/java/com/agilysys/qa/interceptors/RequestInterceptor.java:21-22 | the property pattern, tried at the start of a property URL followed by a non-digit, matches that URL with its two ids as groups |
| `Patterns.ScanPropertyShape` | src/main/java/com/agilysys/qa/interceptors/RequestInterceptor.java:21-22 | a property-pattern match has two non-empty digit groups and matches exactly the property URL of those groups |
| `Patterns.ScanTenantOf` | src/main/java/com/agilysys/qa/interceptors/RequestInterceptor.java:23 | the tenant pattern, tried at the start of a tenant URL followed by a non-digit, matches that URL with its id as the group |
| `Patterns.ScanTenantShape` | src/main/java/com/agilysys/qa/interceptors/RequestInterceptor.java:23 | a tenant-pattern match has a non-empty digit group and matches exactly the tenant URL of that group |
| `Patterns.MatchPropertyIff` | src/main/java/com/agilysys/qa/interceptors/RequestInterceptor.java:49 | `matches()` succeeds with groups (t, p) if and only if t and p are non-empty digit strings and the URL is the property URL rebuilt from them |
| `Patterns.MatchTenantIff` | src/main/java/com/agilysys/qa/interceptors/RequestInterceptor.java:74 | `matches()` succeeds with group t if and only if t is a non-empty digit string and the URL is the tenant URL rebuilt from it |
| `Patterns.FindAfterMatchProperty` | src/main/java/com/agilysys/qa/interceptors/RequestInterceptor.java:49-57 | once `matches()` succeeded, `find()` on a fresh matcher gives the same two groups, so the `""` defaults are never used |
| `Patterns.FindAfterMatchTenant` | src/main/java/com/agilysys/qa/interceptors/RequestInterceptor.java:74-79 | once `matches()` succeeded, `find()` on a fresh matcher gives the same group |
| `Patterns.FindIsNotMatch` | src/main/java/com/agilysys/qa/interceptors/RequestInterceptor.java:51-54 | `find()` alone would accept a property URL followed by more path, which `matches()` rejects |
| `Patterns.PatternsDisjoint` | src/main/java/com/agilysys/qa/interceptors/RequestInterceptor.java:21-23 | no URL fully matches both patterns |
| `Patterns.ClassifyProperty` | src/main/java/com/agilysys/qa/interceptors/RequestInterceptor.java:46-57 | a URL classifies as Property(t, p) if and only if it is the property URL of two non-empty digit strings t and p |
| `Patterns.ClassifyTenant` | src/main/java/com/agilysys/qa/interceptors/RequestInterceptor.java:74-79 | a URL classifies as Tenant(t) if and only if it is the tenant URL of a non-empty digit string t, although the tenant pattern is tried second |
| `Patterns.ClassifyUnmanaged` | src/main/java/com/agilysys/qa/interceptors/RequestInterceptor.java:46-96 | a URL is unmanaged if and only if it is neither a property URL nor a tenant URL of digit ids |
| `Patterns.ClassifyInjective` | src/main/java/com/agilysys/qa/interceptors/RequestInterceptor.java:21-23 | two managed URLs with the same classification are the same URL |
| `Patterns.ManagedMentionsUserService` | src/main/java/com/agilysys/qa/interceptors/RequestInterceptor.java:45 | every managed URL contains `user-service`, so the marker test never hides a managed URL |
| `Patterns.QueryStringIsUnmanaged` | src/main/java/com/agilysys/qa/interceptors/RequestInterceptor.java:46-49 | a tenant URL with a query string is unmanaged, because full-string matching is used |
| `CacheKeys.EncodingType` | src/main/java/com/agilysys/qa/interceptors/RequestInterceptor.java:59-66 | the encoding token: `"gzip"` when the header contains `"gzip"`, otherwise the header verbatim |
| `CacheKeys.PropertyKeyEquals` | src/main/java/com/agilysys/qa/interceptors/RequestInterceptor.java:132-137 | property keys are equal if and only if tenant id, property id and encoding token are all equal |
| `CacheKeys.TenantKeyEquals` | src/main/java/com/agilysys/qa/interceptors/RequestInterceptor.java:166-171 | tenant keys are equal if and only if tenant id and encoding token are both equal |
| `CacheKeys.EncodingTypeCases` | src/main/java/com/agilysys/qa/interceptors/RequestInterceptor.java:59-66 | the token is `"gzip"` if and only if the header contains `"gzip"`, and it is the header unchanged otherwise |
| `CacheKeys.EncodingTypeKeepsGzip` | src/main/java/com/agilysys/qa/interceptors/RequestInterceptor.java:59-66 | the token contains `"gzip"` exactly when the header does |
| `CacheKeys.EncodingTypeIdempotent` | src/main/java/com/agilysys/qa/interceptors/RequestInterceptor.java:82-89 | normalising twice gives the same token as normalising once |
| `CacheKeys.SameEncodingType` | src/main/java/com/agilysys/qa/interceptors/RequestInterceptor.java:59-66 | two headers give one token if and only if both contain `"gzip"` or they are the same text |
| `CacheKeys.EncodingTypeExamples` | src/main/java/com/agilysys/qa/interceptors/RequestInterceptor.java:59-66 | `"gzip, deflate"` and `"gzip"` give `"gzip"`; `"deflate"` and `""` are kept as they are |
| `ResponseStore.Store.constructor` | src/main/java/com/agilysys/qa/interceptors/RequestInterceptor.java:35-40 | a new instance has two empty caches |
| `ResponseStore.Store.GetPropertyIfPresent` | src/main/java/com/agilysys/qa/interceptors/RequestInterceptor.java:67 | `getIfPresent` on the property cache: the entry for the key if there is one, with no change to the cache |
| `ResponseStore.Store.GetTenantIfPresent` | src/main/java/com/agilysys/qa/interceptors/RequestInterceptor.java:90 | `getIfPresent` on the tenant cache: the entry for the key if there is one, with no change to the cache |
| `ResponseStore.Store.PutProperty` | src/main/java/com/agilysys/qa/interceptors/ResponseInterceptor.java:52-53 | `put` maps the key to the value, keeps every other property entry and leaves the tenant cache unchanged |
| `ResponseStore.Store.PutTenant` | src/main/java/com/agilysys/qa/interceptors/ResponseInterceptor.java:74-75 | `put` maps the key to the value, keeps every other tenant entry and leaves the property cache unchanged |
| `ResponseStore.Registry.constructor` | src/main/java/com/agilysys/qa/interceptors/RequestInterceptor.java:33 | the static instance starts out absent |
| `ResponseStore.Registry.GetInstance` | src/main/java/com/agilysys/qa/interceptors/RequestInterceptor.java:188-193 | the first call creates a fresh store with empty caches; later calls return that same store |
| `ResponseStore.SharedInstance` | src/main/java/com/agilysys/qa/interceptors/RequestInterceptor.java:188-193 | a usage example of `GetInstance`, not a separate operation: two calls return one store, and an existing store's caches are untouched |
| `RequestInterceptor.FilterOutcome` | src/main/java/com/agilysys/qa/interceptors/RequestInterceptor.java:43-100 | the filter's decision as a function of the request and both caches: stop with the cached response for a recognised GET hit, otherwise continue with the request |
| `RequestInterceptor.Filter` | src/main/java/com/agilysys/qa/interceptors/RequestInterceptor.java:43-100 | the step-by-step filter (matches, find, encoding token, getIfPresent) decides as `FilterOutcome` and changes nothing |
| `RequestInterceptor.FilterPassesThrough` | src/main/java/com/agilysys/qa/interceptors/RequestInterceptor.java:45-99 | a non-GET request, or a URL without `user-service`, continues with the original request |
| `RequestInterceptor.FilterUnmanaged` | src/main/java/com/agilysys/qa/interceptors/RequestInterceptor.java:96-99 | an unmanaged URL continues with the original request |
| `RequestInterceptor.FilterPropertyPath` | src/main/java/com/agilysys/qa/interceptors/RequestInterceptor.java:49-72 | a GET of a property URL looks up (t, p, token); a hit stops with exactly the cached body, status and headers, and a miss continues |
| `RequestInterceptor.FilterTenantPath` | src/main/java/com/agilysys/qa/interceptors/RequestInterceptor.java:74-95 | a GET of a tenant URL looks up (t, token); a hit stops with exactly the cached body, status and headers, and a miss continues |
| `RequestInterceptor.FilterAnswersFromCache` | src/main/java/com/agilysys/qa/interceptors/RequestInterceptor.java:67-99 | the filter either continues with the request or answers with a response that is in one of the caches |
| `RequestInterceptor.FilterUnderEviction` | src/main/java/com/agilysys/qa/interceptors/RequestInterceptor.java:36-39 | removing entries from the caches can only turn an answer into a pass-through, never into a different answer |
| `ResponseInterceptor.Capture` | src/main/java/com/agilysys/qa/interceptors/ResponseInterceptor.java:25-83 | both caches after a response: the matching cache updated at the request's key for a proxied 200/201 answer to a recognised GET or PUT, otherwise unchanged |
| `ResponseInterceptor.Transform` | src/main/java/com/agilysys/qa/interceptors/ResponseInterceptor.java:25-83 | the step-by-step transform returns the response it was given and leaves the store equal to `Capture` of the old contents |
| `ResponseInterceptor.CaptureSkipsStubResponses` | src/main/java/com/agilysys/qa/interceptors/ResponseInterceptor.java:26 | a response not from the proxy leaves both caches unchanged |
| `ResponseInterceptor.CaptureSkipsOtherRequests` | src/main/java/com/agilysys/qa/interceptors/ResponseInterceptor.java:27-28 | a method other than GET or PUT, or a URL without `user-service`, leaves both caches unchanged |
| `ResponseInterceptor.CaptureSkipsOtherStatuses` | src/main/java/com/agilysys/qa/interceptors/ResponseInterceptor.java:42 | a status other than 200 or 201 leaves both caches unchanged, even for a managed URL |
| `ResponseInterceptor.CaptureSkipsUnmanaged` | src/main/java/com/agilysys/qa/interceptors/ResponseInterceptor.java:29-78 | an unmanaged URL leaves both caches unchanged |
| `ResponseInterceptor.CapturePropertyPath` | src/main/java/com/agilysys/qa/interceptors/ResponseInterceptor.java:32-55 | a successful proxied GET/PUT of a property URL maps (t, p, token) to the response; other property entries and the whole tenant cache are unchanged |
| `ResponseInterceptor.CaptureTenantPath` | src/main/java/com/agilysys/qa/interceptors/ResponseInterceptor.java:57-77 | a successful proxied GET/PUT of a tenant URL maps (t, token) to the response; other tenant entries and the whole property cache are unchanged |
| `ResponseInterceptor.KeyAgreement` | src/main/java/com/agilysys/qa/interceptors/ResponseInterceptor.java:29-53 | the key the capture writes is the key the filter reads: after a capture, a GET of the same URL with the same token stops with that response's body, status and headers |
| `ResponseInterceptor.CaptureAffectsOnlyItsKey` | src/main/java/com/agilysys/qa/interceptors/ResponseInterceptor.java:52-53 | a capture changes the filter's answer only for a GET of the same URL with the same token, and the new answer is the captured response |
| `ResponseInterceptor.CaptureLastWriteWins` | src/main/java/com/agilysys/qa/interceptors/ResponseInterceptor.java:74-75 | storing twice under one key keeps only the last write |
| `ResponseInterceptor.TenantScenario` | src/main/java/com/agilysys/qa/interceptors/ResponseInterceptor.java:57-77 | GET of tenant 42 with gzip: a miss on empty caches, a 200 stored under ("42", "gzip"), then a hit with that body and status 200 |
| `ResponseInterceptor.NotFoundScenario` | src/main/java/com/agilysys/qa/interceptors/ResponseInterceptor.java:64 | the same GET answered 404 stores nothing and the next GET still passes through |
| `ResponseInterceptor.PropertyPutScenario` | src/main/java/com/agilysys/qa/interceptors/ResponseInterceptor.java:27-53 | a PUT of a property URL answered 201 is stored, and a later GET with `gzip, deflate` is answered from it |
| `ResponseInterceptor.CaptureThenFilter` | src/main/java/com/agilysys/qa/interceptors/ResponseInterceptor.java:25-83 | through the shared instance, a transform followed by a filter of the same URL and header serves the captured response |

## Left out

- Expiry and the size bound: `expireAfterWrite(30 min)` and
  `maximumSize(3000/1000)` belong to the cache library and depend on time.
  The caches are plain maps. `FilterUnderEviction` covers eviction only in
  the abstract: an entry may disappear.
- Concurrency: the cache's thread safety and the unsynchronised lazy
  creation in `getInstance` are not modelled. The phases run one after the
  other.
- A missing Accept-Encoding header. The code calls `contains` on the value
  without a null check, so a missing header would throw. The model takes
  the header as a string and writes absence as `""`. It does not model the
  exception, nor the failed request that follows when the exception escapes
  `filter` or `transform` uncaught.
- Header lookup: matching the name `Accept-Encoding` case-insensitively,
  and choosing among several values, happen in the server. A request
  carries just the one value.
- `hashCode` of the keys: value equality on datatypes stands in for hashed
  lookup, so the hash function itself is not modelled.
- `getName` and `applyGlobally`: constant overrides with no logic.
  `FileSource`, `Parameters` and the unused `CONTENT_ENCODING` constant are
  not used by the logic.
- The server's types are reduced to the fields the interceptors use. The
  request method is a fixed enumeration of the standard methods.
- Ids are kept as the digit strings the groups capture, so `"07"` and
  `"7"` are different keys, as in the code.
