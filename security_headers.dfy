/** The fixed set of security response headers. */
module SecurityHeaders {
  import opened Http

  const ContentSecurityPolicyHeader := "Content-Security-Policy"
  const ReferrerPolicyHeader := "Referrer-Policy"
  const FrameOptionsHeader := "X-Frame-Options"
  const ContentTypeOptionsHeader := "X-Content-Type-Options"
  const XssProtectionHeader := "X-XSS-Protection"

  const ContentSecurityPolicy := "default-src 'self'; script-src 'self'; style-src 'self' 'unsafe-inline'"

  /** The five header names, and no others. */
  const SecurityHeaderNames: set<string> :=
    {ContentSecurityPolicyHeader, ReferrerPolicyHeader, FrameOptionsHeader,
     ContentTypeOptionsHeader, XssProtectionHeader}

  /** The header set `securityMiddleware` builds; it depends on nothing, so
      every call yields the same entries. */
  function SecurityHeaderMap(): (h: map<string, string>)
    ensures h.Keys == SecurityHeaderNames && |h| == 5
    ensures h[ContentSecurityPolicyHeader] == ContentSecurityPolicy
    ensures h[ReferrerPolicyHeader] == "no-referrer"
    ensures h[FrameOptionsHeader] == "DENY"
    ensures h[ContentTypeOptionsHeader] == "nosniff"
    ensures h[XssProtectionHeader] == "1; mode=block"
  {
    map[ContentSecurityPolicyHeader := ContentSecurityPolicy,
        ReferrerPolicyHeader := "no-referrer",
        FrameOptionsHeader := "DENY",
        ContentTypeOptionsHeader := "nosniff",
        XssProtectionHeader := "1; mode=block"]
  }

  /** `securityMiddleware()`: five successive `set` calls on a new `Headers` object. */
  method SecurityMiddleware() returns (headers: Headers)
    ensures fresh(headers)
    ensures headers.entries == SecurityHeaderMap()
  {
    headers := new Headers();
    headers.Set(ContentSecurityPolicyHeader, ContentSecurityPolicy);
    headers.Set(ReferrerPolicyHeader, "no-referrer");
    headers.Set(FrameOptionsHeader, "DENY");
    headers.Set(ContentTypeOptionsHeader, "nosniff");
    headers.Set(XssProtectionHeader, "1; mode=block");
  }
}
