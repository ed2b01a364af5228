/** The browser's quick URL heuristic. `new URL(..)` is an oracle: `isValidUrl` says
    whether the constructor accepts the URL, and `parse` gives the hostname of the
    second construction, or None when it throws. */
module UrlValidator {
  import opened Wrappers
  import Text

  datatype UrlCheckResult = UrlCheckResult(url: string, isSafe: bool, reasons: seq<string>)

  const DigitsReason := "Contains numbers in domain"
  const SubdomainsReason := "Excessive number of subdomains"
  const SpecialReason := "Contains special characters in domain"
  const SafeReason := "URL appears safe"

  /** `/\d/.test(hostname)`: an ASCII decimal digit somewhere. */
  predicate HasDigit(hostname: string) {
    exists i :: 0 <= i < |hostname| && '0' <= hostname[i] <= '9'
  }

  predicate Allowed(c: char) {
    ('a' <= c <= 'z') || ('A' <= c <= 'Z') || ('0' <= c <= '9') || c == '.' || c == '-'
  }

  /** `/[^a-zA-Z0-9.-]/.test(hostname)`. */
  predicate HasSpecial(hostname: string) {
    exists i :: 0 <= i < |hostname| && !Allowed(hostname[i])
  }

  /** `hostname.split('.').length - 2`. */
  function Subdomains(hostname: string): int {
    |Text.Split(hostname, '.')| - 2
  }

  /** The reasons the three hostname checks produce, in the order they run. */
  function Checks(hostname: string): seq<string> {
    (if HasDigit(hostname) then [DigitsReason] else [])
    + (if Subdomains(hostname) > 2 then [SubdomainsReason] else [])
    + (if HasSpecial(hostname) then [SpecialReason] else [])
  }

  /** `UrlValidator.checkUrl`. */
  method CheckUrl(url: string, isValidUrl: string -> bool, parse: string -> Option<string>)
    returns (r: UrlCheckResult)
    ensures r.url == url
    ensures !isValidUrl(url) ==> r == UrlCheckResult(url, false, ["Invalid URL format"])
    ensures isValidUrl(url) && parse(url).None? ==> r == UrlCheckResult(url, false, ["Error checking URL"])
    ensures isValidUrl(url) && parse(url).Some? ==>
      var found := Checks(parse(url).value);
      && r.isSafe == (found == [])
      && r.reasons == (if found == [] then [SafeReason] else found)
  {
    if !isValidUrl(url) {
      return UrlCheckResult(url, false, ["Invalid URL format"]);
    }
    if parse(url).None? {
      return UrlCheckResult(url, false, ["Error checking URL"]);
    }
    var hostname := parse(url).value;
    var reasons: seq<string> := [];
    var isSafe := true;
    if HasDigit(hostname) {
      reasons := reasons + [DigitsReason];
      isSafe := false;
    }
    var subdomains := |Text.Split(hostname, '.')| - 2;
    if subdomains > 2 {
      reasons := reasons + [SubdomainsReason];
      isSafe := false;
    }
    if HasSpecial(hostname) {
      reasons := reasons + [SpecialReason];
      isSafe := false;
    }
    r := UrlCheckResult(url, isSafe, if |reasons| > 0 then reasons else [SafeReason]);
  }

  /** The subdomain check fires exactly for hostnames with at least four dots, that is
      at least five dot-separated labels. */
  lemma SubdomainRule(hostname: string)
    ensures Subdomains(hostname) > 2 <==> Text.Count(hostname, '.') >= 4
    ensures Subdomains(hostname) > 2 <==> |Text.Split(hostname, '.')| >= 5
  {
    Text.SplitCount(hostname, '.');
  }

  /** At most three reasons fire, in the order digits, subdomains, special characters;
      the safe message is never among them. */
  lemma ChecksShape(hostname: string)
    ensures |Checks(hostname)| <= 3
    ensures SafeReason !in Checks(hostname)
    ensures HasDigit(hostname) <==> DigitsReason in Checks(hostname)
    ensures Subdomains(hostname) > 2 <==> SubdomainsReason in Checks(hostname)
    ensures HasSpecial(hostname) <==> SpecialReason in Checks(hostname)
    ensures HasDigit(hostname) ==> Checks(hostname)[0] == DigitsReason
    ensures HasSpecial(hostname) ==> Checks(hostname)[|Checks(hostname)| - 1] == SpecialReason
  {
    assert SafeReason[0] != DigitsReason[0] && SafeReason[0] != SubdomainsReason[0] && SafeReason[0] != SpecialReason[0];
    assert DigitsReason[0] != SubdomainsReason[0] && SpecialReason[0] != SubdomainsReason[0];
    assert DigitsReason[9] != SpecialReason[9];
  }

  /** After a successful parse the result is never empty, and the URL is safe exactly
      when the reasons are the single safe message. */
  lemma SafeExactlyWithoutFindings(hostname: string)
    ensures var found := Checks(hostname);
      var reasons := if found == [] then [SafeReason] else found;
      && reasons != []
      && ((found == []) <==> reasons == [SafeReason])
  {
    ChecksShape(hostname);
  }
}
