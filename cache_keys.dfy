/**
 * The cache keys of the two caches and the normalised Accept-Encoding token
 * they carry.
 */
module CacheKeys {
  import opened Strings

  const GZIP: string := "gzip"

  /**
   * The encoding token of an Accept-Encoding value: "gzip" when the value
   * contains "gzip" anywhere (case-sensitive), otherwise the value itself.
   */
  function EncodingType(encodingHeader: string): string {
    if Contains(encodingHeader, GZIP) then GZIP else encodingHeader
  }

  /** The key of the property cache. */
  datatype PropertyCacheKey = PropertyCacheKey(tenantId: string, propertyId: string, encodingType: string)

  /** The key of the tenant cache. */
  datatype TenantCacheKey = TenantCacheKey(tenantId: string, encodingType: string)

  /** PropertyCacheKey.equals, field by field; it coincides with value equality. */
  function PropertyKeyEquals(a: PropertyCacheKey, b: PropertyCacheKey): (r: bool)
    ensures r <==> a == b
  {
    a.tenantId == b.tenantId && a.propertyId == b.propertyId && a.encodingType == b.encodingType
  }

  /** TenantCacheKey.equals, field by field; it coincides with value equality. */
  function TenantKeyEquals(a: TenantCacheKey, b: TenantCacheKey): (r: bool)
    ensures r <==> a == b
  {
    a.tenantId == b.tenantId && a.encodingType == b.encodingType
  }

  /** The token is "gzip" exactly when the header mentions gzip, and the header itself otherwise. */
  lemma EncodingTypeCases(h: string)
    ensures EncodingType(h) == GZIP <==> Contains(h, GZIP)
    ensures !Contains(h, GZIP) ==> EncodingType(h) == h
  {
  }

  /** The token mentions gzip exactly when the header does. */
  lemma EncodingTypeKeepsGzip(h: string)
    ensures Contains(EncodingType(h), GZIP) == Contains(h, GZIP)
  {
  }

  /** Normalising a token again changes nothing. */
  lemma EncodingTypeIdempotent(h: string)
    ensures EncodingType(EncodingType(h)) == EncodingType(h)
  {
  }

  /**
   * Two headers give the same token exactly when both mention gzip or they
   * are the same text.
   */
  lemma SameEncodingType(a: string, b: string)
    ensures EncodingType(a) == EncodingType(b) <==> (Contains(a, GZIP) && Contains(b, GZIP)) || a == b
  {
  }

  /** The normalisation examples: a gzip list collapses, other values stay as they are. */
  lemma EncodingTypeExamples()
    ensures EncodingType("gzip, deflate") == EncodingType("gzip") == "gzip"
    ensures EncodingType("deflate, gzip;q=1.0") == "gzip"
    ensures EncodingType("deflate") == "deflate"
    ensures EncodingType("") == ""
  {
    var h := "deflate, gzip;q=1.0";
    assert h[9..13] == GZIP;
    ContainsAt(h, GZIP, 9);
    forall i | 0 <= i < 4
      ensures !OccursAt("deflate", GZIP, i)
    {
      assert "deflate"[i] != GZIP[0];
    }
    ContainsIff("deflate", GZIP);
  }
}
