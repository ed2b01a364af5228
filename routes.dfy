/** Verdict fusion of `check_phishing`: the eight producer records are inputs (each
    produced by the modules above, or by the ML classifier, which is not modelled);
    the endpoint combines their flags into `isPhishing` and their reasons, in a fixed
    order, into one list. */
module Routes {
  import opened Wrappers
  import Text
  import PhishTank
  import Whois
  import Ssl
  import Redirects
  import Brand
  import Content
  import DynamicDns

  /** The classifier's dictionary; `score` is kept as the text Python prints for it. */
  datatype MlResult = MlResult(
    mlLabel: Option<string>,
    score: Option<string>,
    isSuspicious: Option<bool>,
    error: Option<string>)

  /** What the eight producers returned for one URL; `ml` is None when the classifier
      returned None. */
  datatype Producers = Producers(
    phishtank: PhishTank.PhishTankResult,
    whois: Whois.WhoisResult,
    ssl: Ssl.SslResult,
    redirects: Redirects.RedirectResult,
    brand: Brand.BrandResult,
    content: Content.ContentResult,
    ddns: DynamicDns.DdnsResult,
    ml: Option<MlResult>)

  datatype PhishingCheckResult = PhishingCheckResult(
    url: string,
    isPhishing: bool,
    reasons: seq<string>,
    phishtank: Option<PhishTank.Listing>,
    whois: Whois.WhoisResult,
    ssl: Ssl.SslResult,
    redirects: Redirects.RedirectResult,
    dynamicDns: DynamicDns.DdnsResult,
    brandSimilarity: Brand.BrandResult,
    contentAnalysis: Content.ContentResult,
    mlModel: MlResult)

  /** The record that stands in for an unavailable classifier. */
  const MlUnavailable := MlResult(Some("error"), Some("0"), Some(false), Some("ML model unavailable"))

  /** A classifier result that Python reads as false: None or an empty dictionary. */
  predicate Falsy(ml: Option<MlResult>) {
    ml.None? || ml.value == MlResult(None, None, None, None)
  }

  /** The ML normalisation: a falsy result, or one labelled "error", is replaced. */
  function NormaliseMl(ml: Option<MlResult>): (n: MlResult)
    ensures Falsy(ml) || ml.value.mlLabel == Some("error") ==> n == MlUnavailable
    ensures !(Falsy(ml) || ml.value.mlLabel == Some("error")) ==> n == ml.value
    ensures n.mlLabel != Some("error") || !Truthy(n.isSuspicious)
  {
    if Falsy(ml) || ml.value.mlLabel == Some("error") then MlUnavailable else ml.value
  }

  /** `isPhishing`: the disjunction of the eight flags, a missing key counting as false. */
  predicate IsPhishing(p: Producers) {
    || Truthy(p.phishtank.isPhishing)
    || Truthy(p.whois.isSuspicious)
    || Truthy(p.ssl.isSuspicious)
    || Truthy(p.redirects.isSuspicious)
    || Truthy(p.brand.isSuspicious)
    || Truthy(p.content.isSuspicious)
    || p.ddns.isDynamicDns
    || Truthy(NormaliseMl(p.ml).isSuspicious)
  }

  const PhishTankReason := "URL found in PhishTank database"
  const ExpiredReason := "SSL certificate is expired"
  const NotValidYetReason := "SSL certificate is not yet valid"
  const MismatchReason := "SSL certificate domain doesn't match website domain"

  function PhishTankReasons(pt: PhishTank.PhishTankResult): seq<string> {
    if Truthy(pt.isPhishing) then [PhishTankReason] else []
  }

  /** Python formats a missing creation date as "None". */
  function WhoisReasons(w: Whois.WhoisResult): seq<string> {
    if Truthy(w.isSuspicious)
    then ["Domain is less than 30 days old (created: " + w.creationDate.GetOr("None") + ")"]
    else []
  }

  /** Only a suspicious certificate contributes; a missing `domain_match` is a mismatch. */
  function SslReasons(s: Ssl.SslResult): seq<string> {
    if Truthy(s.isSuspicious) then
      (if Truthy(s.isExpired) then [ExpiredReason] else [])
      + (if Truthy(s.isNotValidYet) then [NotValidYetReason] else [])
      + (if !Truthy(s.domainMatch) then [MismatchReason] else [])
    else []
  }

  /** `reasons.extend(result.get("reasons", []))` under the producer's flag. */
  function Copied(flag: Option<bool>, reasons: Option<seq<string>>): seq<string> {
    if Truthy(flag) then reasons.GetOr([]) else []
  }

  function DdnsReasons(d: DynamicDns.DdnsResult): seq<string> {
    if d.isDynamicDns then ["Domain uses Dynamic-DNS provider (" + d.domain + ")"] else []
  }

  function MlReasons(ml: MlResult): seq<string> {
    if Truthy(ml.isSuspicious) then ["ML model flagged this as phishing (score: " + ml.score.GetOr("None") + ")"] else []
  }

  /** The producers' contributions, in the order they are appended. */
  function Parts(p: Producers): seq<seq<string>> {
    [ PhishTankReasons(p.phishtank),
      WhoisReasons(p.whois),
      SslReasons(p.ssl),
      Copied(p.redirects.isSuspicious, p.redirects.reasons),
      Copied(p.brand.isSuspicious, p.brand.reasons),
      Copied(p.content.isSuspicious, p.content.reasons),
      DdnsReasons(p.ddns),
      MlReasons(NormaliseMl(p.ml)) ]
  }

  function Flatten(parts: seq<seq<string>>): seq<string>
    decreases |parts|
  {
    if parts == [] then [] else Flatten(parts[..|parts| - 1]) + parts[|parts| - 1]
  }

  /** `check_phishing` for a URL whose producers returned `p`. */
  method CheckPhishing(url: string, p: Producers) returns (r: PhishingCheckResult)
    ensures r.url == url
    ensures r.isPhishing == IsPhishing(p)
    ensures r.reasons == Flatten(Parts(p))
    ensures r.phishtank == p.phishtank.phishtank
    ensures r.whois == p.whois && r.ssl == p.ssl && r.redirects == p.redirects && r.dynamicDns == p.ddns
    ensures r.brandSimilarity == p.brand && r.contentAnalysis == p.content
    ensures r.mlModel == NormaliseMl(p.ml)
  {
    var ml: MlResult;
    if p.ml.None? || p.ml.value == MlResult(None, None, None, None) || p.ml.value.mlLabel == Some("error") {
      ml := MlUnavailable;
    } else {
      ml := p.ml.value;
    }
    assert ml == NormaliseMl(p.ml);
    var isPhishing :=
      || Truthy(p.phishtank.isPhishing)
      || Truthy(p.whois.isSuspicious)
      || Truthy(p.ssl.isSuspicious)
      || Truthy(p.redirects.isSuspicious)
      || Truthy(p.brand.isSuspicious)
      || Truthy(p.content.isSuspicious)
      || p.ddns.isDynamicDns
      || Truthy(ml.isSuspicious);
    var reasons := CollectReasons(p, ml);
    FlattenParts(p);
    r := PhishingCheckResult(url, isPhishing, reasons, p.phishtank.phishtank, p.whois, p.ssl,
                             p.redirects, p.ddns, p.brand, p.content, ml);
  }

  /** The nested certificate block: expired, not yet valid, then mismatch. */
  method AppendSslReasons(before: seq<string>, s: Ssl.SslResult) returns (reasons: seq<string>)
    ensures reasons == before + SslReasons(s)
  {
    reasons := before;
    if Truthy(s.isSuspicious) {
      if Truthy(s.isExpired) {
        reasons := reasons + [ExpiredReason];
      }
      if Truthy(s.isNotValidYet) {
        reasons := reasons + [NotValidYetReason];
      }
      if !Truthy(s.domainMatch) {
        reasons := reasons + [MismatchReason];
      }
    }
  }

  /** The guarded appends of `check_phishing`, with the already normalised ML record. */
  method CollectReasons(p: Producers, ml: MlResult) returns (reasons: seq<string>)
    ensures reasons == PhishTankReasons(p.phishtank) + WhoisReasons(p.whois) + SslReasons(p.ssl)
      + Copied(p.redirects.isSuspicious, p.redirects.reasons) + Copied(p.brand.isSuspicious, p.brand.reasons)
      + Copied(p.content.isSuspicious, p.content.reasons) + DdnsReasons(p.ddns) + MlReasons(ml)
  {
    reasons := [];
    if Truthy(p.phishtank.isPhishing) {
      reasons := reasons + [PhishTankReason];
    }
    assert reasons == PhishTankReasons(p.phishtank);
    if Truthy(p.whois.isSuspicious) {
      reasons := reasons + ["Domain is less than 30 days old (created: " + p.whois.creationDate.GetOr("None") + ")"];
    }
    assert reasons == PhishTankReasons(p.phishtank) + WhoisReasons(p.whois);
    reasons := AppendSslReasons(reasons, p.ssl);
    assert reasons == PhishTankReasons(p.phishtank) + WhoisReasons(p.whois) + SslReasons(p.ssl);
    if Truthy(p.redirects.isSuspicious) {
      reasons := reasons + p.redirects.reasons.GetOr([]);
    }
    assert reasons == PhishTankReasons(p.phishtank) + WhoisReasons(p.whois) + SslReasons(p.ssl) + Copied(p.redirects.isSuspicious, p.redirects.reasons);
    if Truthy(p.brand.isSuspicious) {
      reasons := reasons + p.brand.reasons.GetOr([]);
    }
    assert reasons == PhishTankReasons(p.phishtank) + WhoisReasons(p.whois) + SslReasons(p.ssl) + Copied(p.redirects.isSuspicious, p.redirects.reasons) + Copied(p.brand.isSuspicious, p.brand.reasons);
    if Truthy(p.content.isSuspicious) {
      reasons := reasons + p.content.reasons.GetOr([]);
    }
    assert reasons == PhishTankReasons(p.phishtank) + WhoisReasons(p.whois) + SslReasons(p.ssl) + Copied(p.redirects.isSuspicious, p.redirects.reasons) + Copied(p.brand.isSuspicious, p.brand.reasons) + Copied(p.content.isSuspicious, p.content.reasons);
    if p.ddns.isDynamicDns {
      reasons := reasons + ["Domain uses Dynamic-DNS provider (" + p.ddns.domain + ")"];
    }
    assert reasons == PhishTankReasons(p.phishtank) + WhoisReasons(p.whois) + SslReasons(p.ssl) + Copied(p.redirects.isSuspicious, p.redirects.reasons) + Copied(p.brand.isSuspicious, p.brand.reasons) + Copied(p.content.isSuspicious, p.content.reasons) + DdnsReasons(p.ddns);
    if Truthy(ml.isSuspicious) {
      reasons := reasons + ["ML model flagged this as phishing (score: " + ml.score.GetOr("None") + ")"];
    }
  }

  /** The flattened parts written out as one concatenation. */
  lemma FlattenParts(p: Producers)
    ensures var q := Parts(p);
      Flatten(q) == q[0] + q[1] + q[2] + q[3] + q[4] + q[5] + q[6] + q[7]
    ensures Flatten(Parts(p)) == PhishTankReasons(p.phishtank) + WhoisReasons(p.whois) + SslReasons(p.ssl)
      + Copied(p.redirects.isSuspicious, p.redirects.reasons) + Copied(p.brand.isSuspicious, p.brand.reasons)
      + Copied(p.content.isSuspicious, p.content.reasons) + DdnsReasons(p.ddns) + MlReasons(NormaliseMl(p.ml))
  {
    var q := Parts(p);
    assert q[..1][..0] == [];
    assert Flatten(q[..1]) == q[0];
    assert q[..2][..1] == q[..1];
    assert Flatten(q[..2]) == q[0] + q[1];
    assert q[..3][..2] == q[..2];
    assert Flatten(q[..3]) == q[0] + q[1] + q[2];
    assert q[..4][..3] == q[..3];
    assert Flatten(q[..4]) == q[0] + q[1] + q[2] + q[3];
    assert q[..5][..4] == q[..4];
    assert Flatten(q[..5]) == q[0] + q[1] + q[2] + q[3] + q[4];
    assert q[..6][..5] == q[..5];
    assert Flatten(q[..6]) == q[0] + q[1] + q[2] + q[3] + q[4] + q[5];
    assert q[..7][..6] == q[..6];
    assert Flatten(q[..7]) == q[0] + q[1] + q[2] + q[3] + q[4] + q[5] + q[6];
    assert q[..8] == q;
    assert q[..8][..7] == q[..7];
  }

  /** A producer contributes reasons only when its own flag is set. */
  lemma PartNeedsFlag(p: Producers, k: nat)
    requires k < 8 && Parts(p)[k] != []
    ensures k == 0 ==> Truthy(p.phishtank.isPhishing)
    ensures k == 1 ==> Truthy(p.whois.isSuspicious)
    ensures k == 2 ==> Truthy(p.ssl.isSuspicious)
    ensures k == 3 ==> Truthy(p.redirects.isSuspicious)
    ensures k == 4 ==> Truthy(p.brand.isSuspicious)
    ensures k == 5 ==> Truthy(p.content.isSuspicious)
    ensures k == 6 ==> p.ddns.isDynamicDns
    ensures k == 7 ==> Truthy(NormaliseMl(p.ml).isSuspicious)
  {
  }

  lemma {:induction false} FlattenEmpty(parts: seq<seq<string>>)
    requires forall k :: 0 <= k < |parts| ==> parts[k] == []
    ensures Flatten(parts) == []
    decreases |parts|
  {
    if parts != [] {
      FlattenEmpty(parts[..|parts| - 1]);
    }
  }

  /** Every reason append is guarded by a flag of the disjunction: any reason at all
      means the URL is judged phishing. */
  lemma ReasonsImplyVerdict(p: Producers)
    ensures Flatten(Parts(p)) != [] ==> IsPhishing(p)
  {
    if !IsPhishing(p) {
      forall k | 0 <= k < 8 ensures Parts(p)[k] == [] {
        if Parts(p)[k] != [] {
          PartNeedsFlag(p, k);
        }
      }
      FlattenEmpty(Parts(p));
    }
  }

  /** What the modelled producers guarantee about their records: a suspicious
      certificate result has one of its date flags set or no positive `domain_match`,
      and a suspicious redirect, brand or content result has at least one reason. */
  predicate Coherent(p: Producers) {
    && (Truthy(p.ssl.isSuspicious) ==>
          Truthy(p.ssl.isExpired) || Truthy(p.ssl.isNotValidYet) || !Truthy(p.ssl.domainMatch))
    && (Truthy(p.redirects.isSuspicious) ==> p.redirects.reasons.Some? && p.redirects.reasons.value != [])
    && (Truthy(p.brand.isSuspicious) ==> p.brand.reasons.Some? && p.brand.reasons.value != [])
    && (Truthy(p.content.isSuspicious) ==> p.content.reasons.Some? && p.content.reasons.value != [])
  }

  lemma {:induction false} FlattenNonEmpty(parts: seq<seq<string>>, k: nat)
    requires k < |parts| && parts[k] != []
    ensures Flatten(parts) != []
    decreases |parts|
  {
    if k < |parts| - 1 {
      FlattenNonEmpty(parts[..|parts| - 1], k);
    }
  }

  /** With coherent producer records the verdict always comes with a reason, so
      `isPhishing` holds exactly when `reasons` is non-empty. */
  lemma VerdictHasReason(p: Producers)
    requires Coherent(p)
    ensures IsPhishing(p) <==> Flatten(Parts(p)) != []
  {
    ReasonsImplyVerdict(p);
    if IsPhishing(p) {
      var q := Parts(p);
      var k :| 0 <= k < 8 && q[k] != [] by {
        if q[0] == [] && q[1] == [] && q[2] == [] && q[3] == [] && q[4] == [] && q[5] == [] && q[6] == [] {
          assert q[7] != [];
        }
      }
      FlattenNonEmpty(q, k);
    }
  }

  /** The producer calls of `check_phishing`, one after another: PhishTank and the
      redirect follower get the URL; the WHOIS, certificate, brand, content and
      dynamic-DNS checks get its netloc; the classifier's answer is an input. The
      records they return have the shape `Coherent` describes, so for them the verdict
      holds exactly when some reason is given. */
  method RunProducers(
    url: string, apiKey: string, now: int,
    post: map<string, string> -> PhishTank.Reply,
    whois: string -> Whois.Lookup,
    connect: string -> Ssl.Handshake,
    web: Redirects.Web,
    fetch: Content.Fetch,
    ddnsList: set<string>,
    ml: Option<MlResult>)
    returns (p: Producers)
    ensures p.phishtank == PhishTank.CheckUrl(url, apiKey, post)
    ensures p.whois == Whois.CheckDomain(web.netloc(url), now, whois)
    ensures p.ddns == DynamicDns.CheckDomain(ddnsList, web.netloc(url))
    ensures p.ml == ml
    ensures Coherent(p)
    ensures IsPhishing(p) <==> Flatten(Parts(p)) != []
  {
    var domain := web.netloc(url);
    var ssl := Ssl.CheckCertificate(domain, now, connect);
    var redirects := Redirects.CheckRedirects(url, web);
    var brand := Brand.CheckSimilarity(domain);
    var content := Content.AnalyzeContent(domain, fetch);
    p := Producers(
      PhishTank.CheckUrl(url, apiKey, post),
      Whois.CheckDomain(domain, now, whois),
      ssl, redirects, brand, content,
      DynamicDns.CheckDomain(ddnsList, domain),
      ml);
    VerdictHasReason(p);
  }

  /** The concatenation keeps duplicates: a reason occurs in the result as often as it
      occurs in all the contributions together. */
  lemma {:induction false} FlattenOccurrences(parts: seq<seq<string>>, x: string)
    ensures Text.Occurrences(Flatten(parts), x) == PartOccurrences(parts, x)
    decreases |parts|
  {
    if parts != [] {
      FlattenOccurrences(parts[..|parts| - 1], x);
      Text.OccurrencesAppend(Flatten(parts[..|parts| - 1]), parts[|parts| - 1], x);
    }
  }

  function PartOccurrences(parts: seq<seq<string>>, x: string): nat
    decreases |parts|
  {
    if parts == [] then 0
    else PartOccurrences(parts[..|parts| - 1], x) + Text.Occurrences(parts[|parts| - 1], x)
  }

  /** A redirect reason that also comes from the brand producer appears twice. */
  lemma NoDeduplication(p: Producers, x: string)
    requires Truthy(p.redirects.isSuspicious) && p.redirects.reasons == Some([x])
    requires Truthy(p.brand.isSuspicious) && p.brand.reasons == Some([x])
    ensures Text.Occurrences(Flatten(Parts(p)), x) >= 2
  {
    FlattenOccurrences(Parts(p), x);
    var q := Parts(p);
    assert q[3] == [x] && q[4] == [x];
    assert Text.Occurrences([x], x) == 1 by {
      assert [x][..0] == [];
    }
    assert q[..4][..3] == q[..3];
    assert q[..5][..4] == q[..4];
    assert q[..6][..5] == q[..5];
    assert q[..7][..6] == q[..6];
    assert q[..8][..7] == q[..7];
    assert q[..8] == q;
    assert PartOccurrences(q[..4], x) >= 1;
    assert PartOccurrences(q[..5], x) >= 2;
    assert PartOccurrences(q[..6], x) >= 2;
    assert PartOccurrences(q[..7], x) >= 2;
  }

  /** A missing or failed classifier never adds a reason or sets the verdict. */
  lemma UnavailableMlSilent(p: Producers)
    requires Falsy(p.ml) || p.ml.value.mlLabel == Some("error")
    ensures MlReasons(NormaliseMl(p.ml)) == []
    ensures NormaliseMl(p.ml).score == Some("0")
    ensures IsPhishing(p) <==> IsPhishing(p.(ml := Some(MlUnavailable)))
  {
  }

  /** A suspicious certificate result without a `domain_match` key (the error branch)
      is reported as a mismatch, after any date reasons. */
  lemma SslMissingMatchIsMismatch(s: Ssl.SslResult)
    requires Truthy(s.isSuspicious) && s.domainMatch.None?
    ensures |SslReasons(s)| >= 1 && SslReasons(s)[|SslReasons(s)| - 1] == MismatchReason
  {
  }

  /** The certificate's error result contributes exactly the mismatch reason. */
  lemma SslErrorReasons(message: string)
    ensures SslReasons(Ssl.ErrorResult(message)) == [MismatchReason]
  {
  }
}
