/**
 * The two URL patterns of the request interceptor,
 *   PROPERTY_PATTERN  /user-service/property/tenants/([0-9]+)/properties/([0-9]+)
 *   TENANT_PATTERN    /user-service/tenant/tenants/([0-9]+)
 * and the two ways the interceptors run them: Matcher.matches() (the whole
 * URL must match) and Matcher.find() on a fresh matcher (the leftmost match
 * anywhere in the URL), whose groups give the identifiers.
 *
 * Each pattern is a literal prefix followed by greedy digit runs, and every
 * digit run is followed either by a literal that starts with '/' or by the
 * end of the pattern. Backtracking into a run can therefore never help, and
 * one greedy scan (ScanProperty, ScanTenant) computes the match the regex
 * engine finds at a given start position.
 */
module Patterns {
  import opened Wrappers
  import opened Strings

  /** The service namespace marker both interceptors test for. */
  const USER_SERVICE: string := "user-service"

  const PROPERTY_PREFIX: string := "/" + USER_SERVICE + "/property/tenants/"
  const PROPERTIES_INFIX: string := "/properties/"
  const TENANT_PREFIX: string := "/" + USER_SERVICE + "/tenant/tenants/"

  /** The URL that PROPERTY_PATTERN matches with the given groups. */
  function PropertyUrl(tenantId: string, propertyId: string): string {
    PROPERTY_PREFIX + tenantId + PROPERTIES_INFIX + propertyId
  }

  /** The URL that TENANT_PATTERN matches with the given group. */
  function TenantUrl(tenantId: string): string {
    TENANT_PREFIX + tenantId
  }

  /**
   * PROPERTY_PATTERN tried at the start of s: the two groups and the length
   * of the matched text, or None when it does not match there.
   */
  function ScanProperty(s: string): Option<(string, string, nat)> {
    if PROPERTY_PREFIX <= s then
      var (tenantId, afterTenant) := SplitDigits(s[|PROPERTY_PREFIX|..]);
      if tenantId != [] && PROPERTIES_INFIX <= afterTenant then
        var (propertyId, rest) := SplitDigits(afterTenant[|PROPERTIES_INFIX|..]);
        if propertyId != [] then Some((tenantId, propertyId, |s| - |rest|)) else None
      else None
    else None
  }

  /** TENANT_PATTERN tried at the start of s: the group and the length of the matched text. */
  function ScanTenant(s: string): Option<(string, nat)> {
    if TENANT_PREFIX <= s then
      var (tenantId, rest) := SplitDigits(s[|TENANT_PREFIX|..]);
      if tenantId != [] then Some((tenantId, |s| - |rest|)) else None
    else None
  }

  /** PROPERTY_PATTERN.matcher(url).matches(), with the groups of that match. */
  function MatchProperty(url: string): Option<(string, string)> {
    match ScanProperty(url)
    case Some((tenantId, propertyId, n)) =>
      if n == |url| then Some((tenantId, propertyId)) else None
    case None => None
  }

  /** TENANT_PATTERN.matcher(url).matches(), with the group of that match. */
  function MatchTenant(url: string): Option<string> {
    match ScanTenant(url)
    case Some((tenantId, n)) => if n == |url| then Some(tenantId) else None
    case None => None
  }

  /** find() on a fresh PROPERTY_PATTERN matcher: the first start position, from `from` on, with a match. */
  function FindPropertyFrom(url: string, from: nat): Option<(string, string)>
    requires from <= |url|
    decreases |url| - from
  {
    match ScanProperty(url[from..])
    case Some((tenantId, propertyId, _)) => Some((tenantId, propertyId))
    case None => if from == |url| then None else FindPropertyFrom(url, from + 1)
  }

  function FindProperty(url: string): Option<(string, string)> {
    FindPropertyFrom(url, 0)
  }

  /** find() on a fresh TENANT_PATTERN matcher. */
  function FindTenantFrom(url: string, from: nat): Option<string>
    requires from <= |url|
    decreases |url| - from
  {
    match ScanTenant(url[from..])
    case Some((tenantId, _)) => Some(tenantId)
    case None => if from == |url| then None else FindTenantFrom(url, from + 1)
  }

  function FindTenant(url: string): Option<string> {
    FindTenantFrom(url, 0)
  }

  /** The resource shape of a URL, with the identifiers it carries. */
  datatype Resource =
    | Property(tenantId: string, propertyId: string)
    | Tenant(tenantId: string)
    | Unmanaged

  /** The classification both interceptors perform: the property pattern first, then the tenant pattern. */
  function Classify(url: string): Resource {
    match MatchProperty(url)
    case Some((tenantId, propertyId)) => Property(tenantId, propertyId)
    case None =>
      match MatchTenant(url)
      case Some(tenantId) => Tenant(tenantId)
      case None => Unmanaged
  }

  /** A property URL followed by a non-digit (or nothing) is scanned exactly. */
  lemma ScanPropertyOf(tenantId: string, propertyId: string, rest: string)
    requires IsDigits(tenantId) && IsDigits(propertyId)
    requires rest == [] || !IsDigit(rest[0])
    ensures ScanProperty(PropertyUrl(tenantId, propertyId) + rest)
            == Some((tenantId, propertyId, |PropertyUrl(tenantId, propertyId)|))
  {
    var s := PropertyUrl(tenantId, propertyId) + rest;
    assert s == PROPERTY_PREFIX + (tenantId + (PROPERTIES_INFIX + (propertyId + rest)));
    assert s[|PROPERTY_PREFIX|..] == tenantId + (PROPERTIES_INFIX + (propertyId + rest));
    SplitDigitsOf(tenantId, PROPERTIES_INFIX + (propertyId + rest));
    assert (PROPERTIES_INFIX + (propertyId + rest))[|PROPERTIES_INFIX|..] == propertyId + rest;
    SplitDigitsOf(propertyId, rest);
  }

  /** What a successful property scan tells about the scanned text. */
  lemma ScanPropertyShape(s: string)
    requires ScanProperty(s).Some?
    ensures var (tenantId, propertyId, n) := ScanProperty(s).value;
      && IsDigits(tenantId) && IsDigits(propertyId)
      && n <= |s| && s[..n] == PropertyUrl(tenantId, propertyId)
  {
    var (tenantId, afterTenant) := SplitDigits(s[|PROPERTY_PREFIX|..]);
    var (propertyId, rest) := SplitDigits(afterTenant[|PROPERTIES_INFIX|..]);
    assert afterTenant == PROPERTIES_INFIX + propertyId + rest;
    assert s == PROPERTY_PREFIX + tenantId + PROPERTIES_INFIX + propertyId + rest;
  }

  /** A tenant URL followed by a non-digit (or nothing) is scanned exactly. */
  lemma ScanTenantOf(tenantId: string, rest: string)
    requires IsDigits(tenantId)
    requires rest == [] || !IsDigit(rest[0])
    ensures ScanTenant(TenantUrl(tenantId) + rest) == Some((tenantId, |TenantUrl(tenantId)|))
  {
    var s := TenantUrl(tenantId) + rest;
    assert s == TENANT_PREFIX + (tenantId + rest);
    assert s[|TENANT_PREFIX|..] == tenantId + rest;
    SplitDigitsOf(tenantId, rest);
  }

  /** What a successful tenant scan tells about the scanned text. */
  lemma ScanTenantShape(s: string)
    requires ScanTenant(s).Some?
    ensures var (tenantId, n) := ScanTenant(s).value;
      IsDigits(tenantId) && n <= |s| && s[..n] == TenantUrl(tenantId)
  {
    var (tenantId, rest) := SplitDigits(s[|TENANT_PREFIX|..]);
    assert s == TENANT_PREFIX + tenantId + rest;
  }

  /**
   * matches() succeeds with groups (t, p) exactly when the URL is the
   * property URL rebuilt from those two non-empty digit strings.
   */
  lemma MatchPropertyIff(url: string, tenantId: string, propertyId: string)
    ensures MatchProperty(url) == Some((tenantId, propertyId))
            <==> IsDigits(tenantId) && IsDigits(propertyId) && url == PropertyUrl(tenantId, propertyId)
  {
    if IsDigits(tenantId) && IsDigits(propertyId) && url == PropertyUrl(tenantId, propertyId) {
      ScanPropertyOf(tenantId, propertyId, []);
      assert url + [] == url;
    }
    if MatchProperty(url) == Some((tenantId, propertyId)) {
      ScanPropertyShape(url);
      assert url[..|url|] == url;
    }
  }

  /** matches() succeeds with group t exactly when the URL is the tenant URL rebuilt from t. */
  lemma MatchTenantIff(url: string, tenantId: string)
    ensures MatchTenant(url) == Some(tenantId) <==> IsDigits(tenantId) && url == TenantUrl(tenantId)
  {
    if IsDigits(tenantId) && url == TenantUrl(tenantId) {
      ScanTenantOf(tenantId, []);
      assert url + [] == url;
    }
    if MatchTenant(url) == Some(tenantId) {
      ScanTenantShape(url);
      assert url[..|url|] == url;
    }
  }

  /** After matches() succeeded, find() on a fresh matcher yields the same groups. */
  lemma FindAfterMatchProperty(url: string)
    requires MatchProperty(url).Some?
    ensures FindProperty(url) == MatchProperty(url)
  {
    assert url[0..] == url;
  }

  /** After matches() succeeded, find() on a fresh matcher yields the same group. */
  lemma FindAfterMatchTenant(url: string)
    requires MatchTenant(url).Some?
    ensures FindTenant(url) == MatchTenant(url)
  {
    assert url[0..] == url;
  }

  /** Inside a longer URL, find() still reports a property URL at its start, while matches() fails. */
  lemma FindIsNotMatch(tenantId: string, propertyId: string)
    requires IsDigits(tenantId) && IsDigits(propertyId)
    ensures FindProperty(PropertyUrl(tenantId, propertyId) + "/x") == Some((tenantId, propertyId))
    ensures MatchProperty(PropertyUrl(tenantId, propertyId) + "/x") == None
  {
    var url := PropertyUrl(tenantId, propertyId) + "/x";
    ScanPropertyOf(tenantId, propertyId, "/x");
    assert url[0..] == url;
  }

  /** The two patterns are disjoint: no URL fully matches both. */
  lemma PatternsDisjoint(url: string)
    ensures !(MatchProperty(url).Some? && MatchTenant(url).Some?)
  {
  }

  /** A URL classifies as Property(t, p) exactly when it is the property URL of two digit strings t and p. */
  lemma ClassifyProperty(url: string, tenantId: string, propertyId: string)
    ensures Classify(url) == Property(tenantId, propertyId)
            <==> IsDigits(tenantId) && IsDigits(propertyId) && url == PropertyUrl(tenantId, propertyId)
  {
    MatchPropertyIff(url, tenantId, propertyId);
  }

  /** A URL classifies as Tenant(t) exactly when it is the tenant URL of a digit string t. */
  lemma ClassifyTenant(url: string, tenantId: string)
    ensures Classify(url) == Tenant(tenantId) <==> IsDigits(tenantId) && url == TenantUrl(tenantId)
  {
    MatchTenantIff(url, tenantId);
    PatternsDisjoint(url);
  }

  /** A URL is unmanaged exactly when it is neither a property URL nor a tenant URL. */
  lemma ClassifyUnmanaged(url: string)
    ensures Classify(url) == Unmanaged <==>
      && (forall t, p :: IsDigits(t) && IsDigits(p) ==> url != PropertyUrl(t, p))
      && (forall t :: IsDigits(t) ==> url != TenantUrl(t))
  {
    forall t, p | IsDigits(t) && IsDigits(p) && url == PropertyUrl(t, p)
      ensures Classify(url) != Unmanaged
    {
      ClassifyProperty(url, t, p);
    }
    forall t | IsDigits(t) && url == TenantUrl(t)
      ensures Classify(url) != Unmanaged
    {
      ClassifyTenant(url, t);
    }
    match Classify(url)
    case Property(t, p) => ClassifyProperty(url, t, p);
    case Tenant(t) => ClassifyTenant(url, t);
    case Unmanaged =>
  }

  /** The identifiers a URL classifies to determine the URL: distinct managed URLs never share a resource. */
  lemma ClassifyInjective(url1: string, url2: string)
    requires Classify(url1) == Classify(url2) != Unmanaged
    ensures url1 == url2
  {
    match Classify(url1)
    case Property(t, p) =>
      ClassifyProperty(url1, t, p);
      ClassifyProperty(url2, t, p);
    case Tenant(t) =>
      ClassifyTenant(url1, t);
      ClassifyTenant(url2, t);
  }

  /** Every managed URL contains the service namespace marker, so the marker test never hides one. */
  lemma ManagedMentionsUserService(url: string)
    requires Classify(url) != Unmanaged
    ensures Contains(url, USER_SERVICE)
  {
    if MatchProperty(url).Some? {
      assert PROPERTY_PREFIX <= url;
      assert url[1..1 + |USER_SERVICE|] == PROPERTY_PREFIX[1..1 + |USER_SERVICE|];
    } else {
      assert TENANT_PREFIX <= url;
      assert url[1..1 + |USER_SERVICE|] == TENANT_PREFIX[1..1 + |USER_SERVICE|];
    }
    ContainsAt(url, USER_SERVICE, 1);
  }

  /** A query string makes the URL unmanaged, because both patterns must match the whole URL. */
  lemma QueryStringIsUnmanaged()
    ensures Classify("/user-service/tenant/tenants/42?lang=en") == Unmanaged
  {
    var url := "/user-service/tenant/tenants/42?lang=en";
    assert TENANT_PREFIX == "/user-service/tenant/tenants/";
    assert url == TenantUrl("42") + "?lang=en";
    ScanTenantOf("42", "?lang=en");
    assert !(PROPERTY_PREFIX <= url) by {
      assert url[14] != PROPERTY_PREFIX[14];
    }
  }
}
