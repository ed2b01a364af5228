# Phishing checker: a verified model of its decision logic

The phishing checker takes a URL and runs eight producers over it: a PhishTank
lookup, a WHOIS age check, a TLS certificate check, a redirect follower, a
brand-similarity check, a login-form scan, a dynamic-DNS lookup and an ML
classifier. The `check-phishing` endpoint fuses their reports into one verdict
(`isPhishing`) and one ordered list of reasons. A browser client adds a quick
URL heuristic. It also explains each reason from a fixed table, keeps a history
of results with the newest first, and draws two charts from that history.

This project models that decision logic in Dafny, one module per source file:

| module | source file | form |
|---|---|---|
| `Routes` | `backend-python/app/api/routes.py` | datatypes plus a method that appends reasons step by step |
| `PhishTank` | `backend-python/app/services/phishtank_service.py` | functions |
| `Whois` | `backend-python/app/services/whois_service.py` | functions |
| `Ssl` | `backend-python/app/services/ssl_service.py` | a SAN loop method and a result method |
| `Redirects` | `backend-python/app/services/redirect_service.py` | the bounded following loop as a method over a specification function `Walk` |
| `Brand` | `backend-python/app/services/brand_service.py` | the nested scan as methods over a specification function `Matches` |
| `Content` | `backend-python/app/services/content_service.py` | the nested form scan as methods over `AllReasons` |
| `DynamicDns` | `backend-python/app/services/dynamic_dns_service.py` | functions |
| `UrlValidator` | `frontend/src/services/urlValidator.ts` | a method that pushes reasons step by step |
| `UrlChecker` | `frontend/src/components/UrlChecker.tsx` | the explanation scan as a method; the component state as a class |
| `PhishingCharts` | `frontend/src/components/PhishingCharts.tsx` | counting functions; the nested `forEach` tally as methods over a map |
| `Wrappers`, `Text` | (shared) | `Option`, and the Python and JavaScript string operations the code uses |

Everything outside the program is a parameter:
- the network: HTTP replies, the TLS handshake, the WHOIS client, the content fetch and the POST to the backend;
- the parsers: `urlparse(..).netloc`, `urljoin`, `quote` (the URL cleaning), tldextract's registered domain, `new URL`;
- the clock: `now`, as integer seconds.

Each of these is a function-typed argument or a plain value. Python dictionaries
whose keys may be missing become records of `Option` fields, and
`Truthy(o)` (`o == Some(true)`) models `.get(key)` in a boolean position.

Two behaviours of the fusion step are worth stating outright:
- `reasons` is never deduplicated; `Routes.NoDeduplication` shows a repeated reason kept twice;
- the dynamic-DNS reason is appended after the content reasons, as the last producer reason before the classifier's.

## Model

| member | source | states |
|---|---|---|
| Routes.NormaliseMl | backend-python/app/api/routes.py:40-46 | a missing or empty classifier result, or one labelled "error", becomes the unavailable record; any other result passes through; the result is never both "error" and suspicious |
| Routes.UnavailableMlSilent | backend-python/app/api/routes.py:40-46 | an unavailable classifier adds no reason, reports score "0" and leaves the verdict as if the stand-in record had been returned |
| Routes.CheckPhishing | backend-python/app/api/routes.py:27-112 | the result echoes the URL; the verdict is the disjunction of the eight flags, a missing key counting as false; the reasons are the eight contributions concatenated in order; the producer records pass through; `phishtank` is the inner listing |
| Routes.CollectReasons | backend-python/app/api/routes.py:69-98 | the guarded appends build PhishTank, WHOIS, SSL, redirect, brand, content, DDNS and ML reasons, in that order |
| Routes.AppendSslReasons | backend-python/app/api/routes.py:77-83 | a suspicious certificate adds expired, then not-yet-valid, then mismatch, each under its own flag |
| Routes.FlattenParts | backend-python/app/api/routes.py:69-98 | the reason list is exactly the eight producer contributions in the fixed order, DDNS after content |
| Routes.PartNeedsFlag | backend-python/app/api/routes.py:71-98 | each non-empty contribution has its producer's flag set |
| Routes.ReasonsImplyVerdict | backend-python/app/api/routes.py:57-98 | a non-empty reason list implies `isPhishing` |
| Routes.VerdictHasReason | backend-python/app/api/routes.py:57-98 | for producer records of the modelled shape, `isPhishing` holds exactly when the reason list is non-empty |
| Routes.RunProducers | backend-python/app/api/routes.py:27-38 | each producer is run on the URL or its netloc, as the endpoint does; the records it builds have the modelled shape, so `isPhishing` holds exactly when the reason list is non-empty |
| Routes.FlattenOccurrences | backend-python/app/api/routes.py:69-98 | each reason occurs in the list as often as in all contributions together |
| Routes.NoDeduplication | backend-python/app/api/routes.py:85-92 | a reason reported by both the redirect and the brand producer appears at least twice |
| Routes.SslMissingMatchIsMismatch | backend-python/app/api/routes.py:77-83 | a suspicious certificate without a `domain_match` key ends with the mismatch reason |
| Routes.SslErrorReasons | backend-python/app/api/routes.py:77-83 | the certificate error record contributes exactly the mismatch reason |
| PhishTank.Params | backend-python/app/services/phishtank_service.py:9-14 | the request always carries `url` and `format=json`; `app_key` is present exactly when the key is non-empty, and nothing else is |
| PhishTank.CheckUrl | backend-python/app/services/phishtank_service.py:8-45 | the flag is always present and true exactly on a 200 reply listing the URL as in the database and valid; the inner results are kept exactly when there is no error; a non-200 status and an exception each give false plus their error text; on a 200 reply the listing is kept with `isPhishing` equal to `in_database and valid`; a reply without `results` or `in_database`, a listed entry without `valid`, and a body that is not JSON each raise and become the exception's error record, while a false `in_database` is kept as the listing |
| Whois.Decide | backend-python/app/services/whois_service.py:11-44 | suspicious exactly when an age is known and below 30 days; no age exactly when there is an error; an exception and a missing creation date fail open; list dates use their first element, and an empty expiration list raises; a decided record copies the registrar, organization and country and carries no error |
| Whois.CheckDomain | backend-python/app/services/whois_service.py:6-44 | the lookup is done on the name with every "www." removed and then decided as above |
| Whois.AgeThreshold | backend-python/app/services/whois_service.py:22-27 | the day-count test equals the test on seconds: younger than 30 full days |
| Whois.FailsOpen | backend-python/app/services/whois_service.py:37-44 | every result with an error is not suspicious |
| Whois.LookupNameOfWww | backend-python/app/services/whois_service.py:8 | a leading "www." does not change the looked-up name, and a name without "www." is looked up as is |
| Ssl.MatchDomain | backend-python/app/services/ssl_service.py:28-33 | the flag holds exactly when some DNS entry equals the domain or "*." + domain; false without SANs |
| Ssl.CheckCertificate | backend-python/app/services/ssl_service.py:8-55 | expired iff now > notAfter, not yet valid iff now < notBefore, valid iff neither; suspicious iff invalid or no match; issuer defaults to "Unknown"; a failure gives the error record without `domain_match`; with ordered dates the two date flags never both hold; a suspicious record has an expired or not-yet-valid flag or a missing match |
| Redirects.WwwRedirectCases | backend-python/app/services/redirect_service.py:36-43 | the relation is symmetric; lower-cased hosts match when equal or when one is the other with one "www." in front |
| Redirects.WwwStrippedOnce | backend-python/app/services/redirect_service.py:36-43 | only one leading "www." is dropped: "www.www." + d never matches "www." + d, for any host d |
| Redirects.Probe | backend-python/app/services/redirect_service.py:66-78 | one round does exactly what `StepFrom` describes; its rules are stated by `StepFromRules` and `TargetRule` |
| Redirects.StepFromRules | backend-python/app/services/redirect_service.py:66-78 | a raising HEAD is a fault; a non-3xx HEAD ends the chain; a 3xx HEAD with a Location goes to that Location's target; any next URL comes from a 3xx HEAD and its Location, or, when HEAD has none, from the GET reply's Location; the chain ends only on a non-3xx HEAD or when neither reply has a Location |
| Redirects.TargetRule | backend-python/app/services/redirect_service.py:77-78 | an absolute `http://` or `https://` Location is cleaned as it is; any other is first joined to the current URL |
| Redirects.WalkShape | backend-python/app/services/redirect_service.py:61-90 | each round appends its URL; a normal exit adds at most the remaining rounds; a loop exit appends the repeated URL, which already occurs in the chain |
| Redirects.WalkStopsAtEnd | backend-python/app/services/redirect_service.py:61-90 | on a normal exit each URL is the redirect target of the one before, no URL repeats, and a chain shorter than the bound ends at a URL that does not redirect |
| Redirects.WalkLoopsBack | backend-python/app/services/redirect_service.py:80-88 | on a loop exit the chain is linked by redirects and distinct up to the repeated URL |
| Redirects.RedirectPath | backend-python/app/services/redirect_service.py:57-90 | from the cleaned input: a normal chain has 1 to 5 entries and starts with the cleaned URL; a loop chain has 2 to 6 and ends with a URL seen before |
| Redirects.WalkFrom | backend-python/app/services/redirect_service.py:61-90 | for any start and bound: a normal chain has 1 to bound entries, starts at the start, is linked by redirects and has no repeats; a loop chain has 2 to bound + 1 entries and ends with a URL seen before |
| Redirects.FollowChain | backend-python/app/services/redirect_service.py:56-90 | the loop's chain and outcome are those of `Walk`; the visited hosts are the hosts of the chain, without the repeated URL on a loop |
| Redirects.BaseReasons | backend-python/app/services/redirect_service.py:92-107 | the reasons are the too-many and domain-change reasons, whose rules `BaseReasonRules` states |
| Redirects.BaseReasonRules | backend-python/app/services/redirect_service.py:94-107 | at most two reasons; "Too many redirects (n)" is present iff not an auth flow and the chain has more than 3 entries; equal or www-related hosts give no domain-change reason; an auth flow never gets "Redirects to different domain", and gets the suspicious-auth reason exactly when the hosts differ beyond "www." and the final registered domain is suspicious; a non-auth flow between hosts that differ beyond "www." gets "Redirects to different domain" |
| Redirects.SuspiciousReasons | backend-python/app/services/redirect_service.py:109-111 | one "Uses suspicious domain" reason per visited host whose registered domain is suspicious, in some order, without repeats |
| Redirects.UsesSuspiciousInjective | backend-python/app/services/redirect_service.py:111 | different hosts give different reasons |
| Redirects.CheckRedirects | backend-python/app/services/redirect_service.py:55-132 | a loop gives exactly "Redirect loop detected" with the repeated URL as final; a normal exit gives the base reasons followed by the suspicious-host reasons and is suspicious iff some reason exists; any exception gives the error record with chain `[url]`; a suspicious record always has a non-empty reason list |
| Brand.EditDistanceZero | backend-python/app/services/brand_service.py:44-46 | the distance is zero exactly between equal strings |
| Brand.EditDistanceLengthBound | backend-python/app/services/brand_service.py:44-46 | the distance is at least the difference of the lengths |
| Brand.ReasonMentions | backend-python/app/services/brand_service.py:76 | each reason names the brand, the brand domain and the score |
| Brand.DomainMatchesMembership | backend-python/app/services/brand_service.py:68-76 | a brand's domain is listed iff its distance to the target is at most 3 |
| Brand.MatchesMembership | backend-python/app/services/brand_service.py:67-76 | a match is listed iff some table entry's domain is within distance 3 |
| Brand.ExactDomainFlagged | backend-python/app/services/brand_service.py:67-76 | a target equal to a brand domain is listed with score 0 |
| Brand.ScanDomains | backend-python/app/services/brand_service.py:68-76 | the inner loop appends the brand's matches, in domain order, each with its reason |
| Brand.ScanTable | backend-python/app/services/brand_service.py:67-76 | the matches in table order, then domain order, with one aligned reason each |
| Brand.CheckSimilarity | backend-python/app/services/brand_service.py:48-83 | the target is the lower-cased netloc; an ignored target is clean with no matches; otherwise the matches and aligned reasons, suspicious iff there is a match; a suspicious record always has a non-empty reason list |
| Content.InputReasons | backend-python/app/services/content_service.py:97-101 | one sensitive-information reason per input whose lower-cased name is sensitive, in input order, appended to what came before |
| Content.CheckForms | backend-python/app/services/content_service.py:84-103 | the reasons of each form in form order: the password reason first (only on a domain that is not legitimate), then the input reasons |
| Content.AnalyzeContent | backend-python/app/services/content_service.py:105-139 | an ignored domain is clean with no fetch; a failed fetch gives one "Error analyzing content: " reason; otherwise suspicious iff there are reasons, and `suspicious_forms` equals them; a suspicious record always has a non-empty reason list |
| Content.PasswordReasonCount | backend-python/app/services/content_service.py:89-94 | the password reason occurs once per form with a password input, and never on a legitimate domain |
| Content.NoPasswordReasonAmongSensitive | backend-python/app/services/content_service.py:96-101 | an input never produces the password reason |
| Content.ReasonTally | backend-python/app/services/content_service.py:84-103 | the number of reasons is the password forms (off a legitimate domain) plus the sensitive inputs |
| Content.SensitiveTally | backend-python/app/services/content_service.py:97-101 | one reason per sensitive input |
| DynamicDns.LoadDomains | backend-python/app/services/dynamic_dns_service.py:16-22 | an entry is loaded exactly when some line is non-blank, does not start with "#", and strips and lower-cases to it |
| DynamicDns.KeptLine | backend-python/app/services/dynamic_dns_service.py:21 | a line is kept exactly when it has a character that is not white space and does not start with "#" |
| DynamicDns.EntriesAreClean | backend-python/app/services/dynamic_dns_service.py:16-22 | every loaded entry is non-empty, has no surrounding white space and no capital letter |
| DynamicDns.Normalise | backend-python/app/services/dynamic_dns_service.py:25 | lower-cases, then strips the whole leading run of 'w' and '.' characters |
| DynamicDns.LeadingRunIgnored | backend-python/app/services/dynamic_dns_service.py:25 | any leading run of 'w' and '.' is dropped, whatever its length |
| DynamicDns.WrongPrefixReadAsProvider | backend-python/app/services/dynamic_dns_service.py:24-29 | because of that, "wdyndns.org" is treated as "dyndns.org" |
| DynamicDns.RunBeforeEntry | backend-python/app/services/dynamic_dns_service.py:24-29 | any run of 'w' and '.' put in front of a listed lower-case entry is judged dynamic |
| DynamicDns.CheckDomain | backend-python/app/services/dynamic_dns_service.py:31-34 | the input domain is echoed; the flag holds iff the normalised domain equals an entry or ends with "." + entry |
| DynamicDns.SubdomainOfEntry | backend-python/app/services/dynamic_dns_service.py:24-29 | a lower-case subdomain of a listed entry that does not start with 'w' or '.' is dynamic, whatever its first label, "www" included |
| DynamicDns.CoversAfterStrip | backend-python/app/services/dynamic_dns_service.py:25-29 | stripping a character set from first + "." + entry, when the set does not hold the entry's first character, leaves a name that the entry covers |
| DynamicDns.WEntryEaten | backend-python/app/services/dynamic_dns_service.py:24-29 | a listed entry "w" + rest is missed for "www." + entry, because the strip also removes the entry's 'w' |
| DynamicDns.WwwBeforeWEntryMissed | backend-python/app/services/dynamic_dns_service.py:24-29 | with "webhop.me" listed, "www.webhop.me" normalises to "ebhop.me" and is not judged dynamic |
| UrlValidator.CheckUrl | frontend/src/services/urlValidator.ts:8-52 | an unparseable URL gives exactly "Invalid URL format"; a later error gives "Error checking URL"; otherwise safe iff no check fired, with "URL appears safe" as the only reason in that case |
| UrlValidator.SubdomainRule | frontend/src/services/urlValidator.ts:28-32 | the subdomain check fires iff the hostname has at least four dots, that is at least five labels |
| UrlValidator.ChecksShape | frontend/src/services/urlValidator.ts:23-37 | at most three reasons, digits first and special characters last; each reason present iff its check fires; never the safe message |
| UrlValidator.SafeExactlyWithoutFindings | frontend/src/services/urlValidator.ts:39-43 | the reason list is never empty, and is the safe message exactly when no check fired |
| UrlChecker.ExactLookup | frontend/src/components/UrlChecker.tsx:129 | an entry is found iff some key equals the reason |
| UrlChecker.FirstPrefix | frontend/src/components/UrlChecker.tsx:131-136 | nothing iff no key is a prefix of the reason; otherwise the text of the first such key in table order |
| UrlChecker.Explain | frontend/src/components/UrlChecker.tsx:129-137 | the scan returns the exact entry when its text is non-empty, else the first prefix entry, else nothing |
| UrlChecker.ExplanationKeysPrefixFree | frontend/src/components/UrlChecker.tsx:74-95 | no key of the table is a prefix of another |
| UrlChecker.PrefixMatchUnique | frontend/src/components/UrlChecker.tsx:74-95 | at most one key is a prefix of any reason |
| UrlChecker.AgeReasonExplained | frontend/src/components/UrlChecker.tsx:77-78 | "Domain is less than 30 days old (created: …)" gets the age explanation |
| UrlChecker.BrandReasonUnexplained | frontend/src/components/UrlChecker.tsx:91-92 | no brand reason ("Domain similar to …") gets an explanation, since its key is "Label similar to" |
| UrlChecker.SslReasonUnexplained | frontend/src/components/UrlChecker.tsx:79-84 | no backend certificate reason ("SSL …") gets an explanation |
| UrlChecker.SslReasonList | frontend/src/components/UrlChecker.tsx:219-223 | shown only when the certificate is invalid; at most three entries, each present iff its flag is set, in the order mismatch, expired, not yet valid, with no entry twice |
| UrlChecker.SslListExplained | frontend/src/components/UrlChecker.tsx:219-223 | every entry of the shown certificate list has an explanation |
| UrlChecker.SslErrorShowsMismatch | frontend/src/components/UrlChecker.tsx:219-223 | the certificate error record shows exactly the mismatch entry |
| UrlChecker.RowStatusRule | frontend/src/components/UrlChecker.tsx:179-186 | the status is "Suspicious" or "Safe", and "Suspicious" exactly when there is a PhishTank listing that is both in the database and valid |
| UrlChecker.RowStatusDependsOnListing | frontend/src/components/UrlChecker.tsx:179-186 | two entries with the same PhishTank listing get the same status, whatever their verdicts and reasons |
| UrlChecker.Prepend | frontend/src/components/UrlChecker.tsx:119 | the new entry is first and the earlier entries follow in order |
| UrlChecker.Checker.constructor | frontend/src/components/UrlChecker.tsx:69-71 | empty input, empty history, no error |
| UrlChecker.Checker.SetInput | frontend/src/components/UrlChecker.tsx:160 | only the input changes |
| UrlChecker.Checker.CheckUrl | frontend/src/components/UrlChecker.tsx:106-124 | an invalid URL sets the error and keeps history and input; an answer is prepended, clears the input and the error; a failed request records its message and keeps the history |
| PhishingCharts.Safe | frontend/src/components/PhishingCharts.tsx:7-9 | suspicious plus safe is the total |
| PhishingCharts.SafeCounts | frontend/src/components/PhishingCharts.tsx:7-9 | `safe` is the number of entries not judged phishing |
| PhishingCharts.PieData | frontend/src/components/PhishingCharts.tsx:11-14 | exactly the suspicious slice, then the safe one, adding up to the total |
| PhishingCharts.TallyEntry | frontend/src/components/PhishingCharts.tsx:19-21 | after one entry's reasons, every key counts its occurrences so far, keys are in first-seen order, and the counts add up to the number of reasons seen |
| PhishingCharts.CountReasons | frontend/src/components/PhishingCharts.tsx:17-22 | each reason's count is its number of occurrences over all entries, duplicates included; the keys are the distinct reasons in first-seen order; the counts add up to the total number of reasons |
| PhishingCharts.BarData | frontend/src/components/PhishingCharts.tsx:24-27 | one bar per key, in key order, carrying its count |
| PhishingCharts.BarSumTotal | frontend/src/components/PhishingCharts.tsx:24-27 | the bar counts add up to the total of the tally |
| PhishingCharts.BarsOfHistory | frontend/src/components/PhishingCharts.tsx:17-27 | for the tally of a history: the bar reasons are distinct and are exactly the reasons occurring in the history; each bar's count is its reason's number of occurrences; the counts add up to the number of reasons in the history |

## Left out

- Network, sockets, TLS, the WHOIS library, the HTML fetch and the POST to the backend: they are function parameters, assumed to give the same answer for the same input.
- The URL parsers (`urlparse`, `urljoin`, `quote`, `new URL`) and tldextract: they are supplied functions. The second `new URL` in the URL heuristic is its own function, which may fail even when the validity test passes.
- The Python parsers are total here: `urlparse` raises `ValueError` on a malformed bracketed host such as `http://[::1`, at routes.py line 29, in `_clean_url` (redirect_service.py line 57), at brand_service.py line 53 and at content_service.py line 111; the endpoint then fails the whole request, while the model always returns a result.
- BeautifulSoup: a form is a sequence of inputs with an optional `type` and a `name` that defaults to "".
- The clock and `strptime`: dates are integer seconds; the day count is a floor division by 86400.
- The ML classifier (`ml_model_service.py`): it is a producer input, and its floating-point score is carried as the text Python prints.
- Concurrency: the producers run one after another, as in the code.
- UrlChecker.Checker.CheckUrl: the reply body is assumed to be a check result. The client never tests the HTTP status (UrlChecker.tsx lines 113-119), so a JSON error body such as the `{error, details}` reply of the backend's 500 path would be prepended as a history row; `Response` has no case for it.
- UrlChecker.ExactLookup: the explanation table is a plain map, so the inherited properties a JavaScript object literal also answers to (`EXPLANATIONS["constructor"]`, `"toString"`, at UrlChecker.tsx line 129) are not modelled; no backend reason has such a name.
- Logging (`print`, `console.error`), `localStorage`, and all JSX and chart rendering.
- Lower-casing covers ASCII and Latin-1 capitals only, not all of Unicode.
- Redirects.SuspiciousReasons: the order of the "Uses suspicious domain" reasons follows Python set iteration, which the model leaves unspecified; the contract states which reasons appear, not their order. `domains_visited` is a set for the same reason.
- Content.AnalyzeContent: the outer `except` (content_service.py lines 141-148) can only be reached by an error raised inside the form scan, which has no failure here.
- PhishingCharts.CountReasons: JavaScript object keys are modelled as insertion-ordered; the integer-like keys that `Object.entries` would list first, and prototype keys such as "__proto__", are not modelled.
- Routes.VerdictHasReason: the converse direction needs `Coherent`, a shape that the fusion step itself does not check; `Routes.RunProducers` proves that the modelled producers give it.
