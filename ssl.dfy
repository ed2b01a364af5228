/** The certificate check. The TLS handshake is an oracle from the host name to the
    peer certificate (or an exception); the clock is the parameter `now`; validity
    dates are timestamps. */
module Ssl {
  import opened Wrappers

  /** One subjectAltName entry, e.g. ("DNS", "*.example.com"). */
  datatype San = San(kind: string, value: string)

  datatype Certificate = Certificate(
    notBefore: int,
    notAfter: int,
    subjectAltName: Option<seq<San>>,
    organization: Option<string>)

  datatype Handshake = Connected(cert: Certificate) | Raised(message: string)

  /** The dictionary `check_certificate` returns; the error branch has only
      `is_valid`, `error` and `is_suspicious`. */
  datatype SslResult = SslResult(
    isValid: bool,
    isExpired: Option<bool>,
    isNotValidYet: Option<bool>,
    issuer: Option<string>,
    validFrom: Option<int>,
    validUntil: Option<int>,
    domainMatch: Option<bool>,
    isSuspicious: Option<bool>,
    error: Option<string>)

  /** The literal comparison of the source: a DNS entry equal to the host or to "*." + host. */
  predicate SanMatches(san: San, domain: string) {
    san.kind == "DNS" && (san.value == domain || san.value == "*." + domain)
  }

  /** The SAN scan: stops at the first matching entry. */
  method MatchDomain(sans: Option<seq<San>>, domain: string) returns (found: bool)
    ensures found <==> sans.Some? && exists k :: 0 <= k < |sans.value| && SanMatches(sans.value[k], domain)
  {
    found := false;
    if sans.Some? {
      var entries := sans.value;
      var i := 0;
      while i < |entries|
        invariant 0 <= i <= |entries|
        invariant !found
        invariant forall k :: 0 <= k < i ==> !SanMatches(entries[k], domain)
      {
        if SanMatches(entries[i], domain) {
          found := true;
          break;
        }
        i := i + 1;
      }
    }
  }

  function ErrorResult(message: string): SslResult {
    SslResult(false, None, None, None, None, None, None, Some(true), Some("Error checking SSL: " + message))
  }

  /** `check_certificate` for host `domain` (the URL's netloc). */
  method CheckCertificate(domain: string, now: int, connect: string -> Handshake) returns (r: SslResult)
    ensures connect(domain).Raised? ==> r == ErrorResult(connect(domain).message)
    ensures connect(domain).Connected? ==>
      var cert := connect(domain).cert;
      && r.isExpired == Some(now > cert.notAfter)
      && r.isNotValidYet == Some(now < cert.notBefore)
      && r.isValid == (cert.notBefore <= now <= cert.notAfter)
      && r.domainMatch.Some?
      && (r.domainMatch.value <==>
            (cert.subjectAltName.Some? &&
             exists k :: 0 <= k < |cert.subjectAltName.value| && SanMatches(cert.subjectAltName.value[k], domain)))
      && r.issuer == Some(cert.organization.GetOr("Unknown"))
      && r.validFrom == Some(cert.notBefore) && r.validUntil == Some(cert.notAfter)
      && r.error.None?
    // suspicious exactly when expired, not yet valid, or no SAN matches; always on an error
    ensures r.isSuspicious == Some(!r.isValid || r.domainMatch != Some(true))
    // with notBefore <= notAfter the two date flags never both hold
    ensures connect(domain).Connected? && connect(domain).cert.notBefore <= connect(domain).cert.notAfter ==>
      !(Truthy(r.isExpired) && Truthy(r.isNotValidYet))
    // a suspicious result always has a reason to show: a date flag or no positive match
    ensures Truthy(r.isSuspicious) ==> Truthy(r.isExpired) || Truthy(r.isNotValidYet) || !Truthy(r.domainMatch)
  {
    match connect(domain)
    case Raised(m) =>
      r := ErrorResult(m);
    case Connected(cert) =>
      var isExpired := now > cert.notAfter;
      var isNotValidYet := now < cert.notBefore;
      var domainMatch := MatchDomain(cert.subjectAltName, domain);
      r := SslResult(
        !(isExpired || isNotValidYet), Some(isExpired), Some(isNotValidYet),
        Some(cert.organization.GetOr("Unknown")), Some(cert.notBefore), Some(cert.notAfter),
        Some(domainMatch), Some(isExpired || isNotValidYet || !domainMatch), None);
  }
}
