/** The checker page: the explanation table and its lookup, the history of results
    (newest first), the certificate reason list and the row status. The validity test
    of `new URL` and the POST to the backend are oracles; `localStorage` and rendering
    are not modelled. */
module UrlChecker {
  import opened Wrappers
  import Text
  import Ssl
  import Brand
  import Routes

  /** The keys of `EXPLANATIONS`, in insertion order (no key is an integer-like string,
      so this is also the order in which `for…in` visits them). */
  const ExplanationKeys: seq<string> := [
    "URL found in PhishTank database",
    "Domain is less than 30 days old",
    "Certificate domain mismatch",
    "Certificate expired",
    "Certificate not yet valid",
    "Domain uses Dynamic-DNS provider",
    "Form contains password field",
    "Form requests sensitive information",
    "Label similar to",
    "Uses suspicious domain"
  ]

  /** The explanation texts, key by key. */
  const ExplanationTexts: seq<string> := [
    "This URL has been reported and verified by the community as a phishing page.",
    "Newly registered domains are often used in short-lived phishing campaigns before they can be blacklisted.",
    "An SSL certificate must match the site's hostname; a mismatch breaks trust and could allow interception.",
    "Expired certificates no longer guarantee encryption or authenticity\U{2014}attackers can exploit this lapse to intercept or modify traffic.",
    "Certificates are only valid after their start date\U{2014}premature use can indicate misissuance or tampering.",
    "Dynamic-DNS services allow IPs to change rapidly, often used by attackers to evade takedowns.",
    "Login forms on untrusted domains can harvest your credentials.",
    "Requesting personal data (credit card, CPF/CNPJ, etc.) outside an official site is a common identity-theft tactic.",
    "Domains that closely resemble known brands are used by attackers to trick users into giving up credentials.",
    "Unexpected redirects to unknown or malicious hosts indicate attempts to evade detection."
  ]

  /** `EXPLANATIONS`: the (key, text) pairs in order. */
  const Explanations: seq<(string, string)> :=
    seq(|ExplanationKeys|, k requires 0 <= k < |ExplanationKeys| => (ExplanationKeys[k], ExplanationTexts[k]))

  /** `EXPLANATIONS[reason]`: the entry whose key is the reason itself. */
  function ExactLookup(table: seq<(string, string)>, reason: string): (e: Option<string>)
    ensures e.Some? <==> exists i :: 0 <= i < |table| && table[i].0 == reason
    decreases |table|
  {
    if table == [] then None
    else if table[0].0 == reason then Some(table[0].1)
    else
      var rest := ExactLookup(table[1..], reason);
      assert forall i :: 1 <= i < |table| ==> table[i] == table[1..][i - 1];
      rest
  }

  /** Entry i is the first whose key the reason starts with. */
  predicate FirstPrefixAt(table: seq<(string, string)>, reason: string, i: int) {
    && 0 <= i < |table|
    && Text.StartsWith(reason, table[i].0)
    && forall k :: 0 <= k < i ==> !Text.StartsWith(reason, table[k].0)
  }

  /** The `for…in` scan: the explanation of the first key the reason starts with. */
  function FirstPrefix(table: seq<(string, string)>, reason: string): (e: Option<string>)
    ensures e.None? <==> forall i :: 0 <= i < |table| ==> !Text.StartsWith(reason, table[i].0)
    ensures e.Some? ==> exists i :: FirstPrefixAt(table, reason, i) && e.value == table[i].1
    decreases |table|
  {
    if table == [] then None
    else if Text.StartsWith(reason, table[0].0) then
      assert FirstPrefixAt(table, reason, 0);
      Some(table[0].1)
    else
      var rest := FirstPrefix(table[1..], reason);
      assert forall i :: 1 <= i < |table| ==> table[i] == table[1..][i - 1];
      if rest.Some? then
        var j :| FirstPrefixAt(table[1..], reason, j) && rest.value == table[1..][j].1;
        assert FirstPrefixAt(table, reason, j + 1);
        rest
      else rest
  }

  /** The explanation shown for a reason: the exact entry when it is truthy, otherwise
      the first prefix entry, otherwise whatever the exact lookup gave (nothing). */
  function Lookup(table: seq<(string, string)>, reason: string): Option<string> {
    var exact := ExactLookup(table, reason);
    if exact.Some? && exact.value != "" then exact
    else if FirstPrefix(table, reason).Some? then FirstPrefix(table, reason)
    else exact
  }

  /** The lookup in `renderReasons`, with its loop and `break`; the page passes
      `Explanations` as `table`. */
  method Explain(table: seq<(string, string)>, reason: string) returns (explanation: Option<string>)
    ensures explanation == Lookup(table, reason)
  {
    explanation := ExactLookup(table, reason);
    if !(explanation.Some? && explanation.value != "") {
      var i := 0;
      while i < |table|
        invariant 0 <= i <= |table|
        invariant explanation == ExactLookup(table, reason)
        invariant forall k :: 0 <= k < i ==> !Text.StartsWith(reason, table[k].0)
      {
        if Text.StartsWith(reason, table[i].0) {
          FirstPrefixUnique(table, reason, i);
          explanation := Some(table[i].1);
          break;
        }
        i := i + 1;
      }
    }
  }

  /** The first prefix entry is the one `FirstPrefix` reports. */
  lemma FirstPrefixUnique(table: seq<(string, string)>, reason: string, i: int)
    requires FirstPrefixAt(table, reason, i)
    ensures FirstPrefix(table, reason) == Some(table[i].1)
  {
    var e := FirstPrefix(table, reason);
    var j :| FirstPrefixAt(table, reason, j) && e.value == table[j].1;
    assert !(j < i) && !(i < j);
  }

  /** No key of the table is a prefix of another key. */
  predicate PrefixFree(table: seq<(string, string)>) {
    forall i, j :: 0 <= i < |table| && 0 <= j < |table| && i != j ==> !Text.StartsWith(table[j].0, table[i].0)
  }

  lemma ExplanationKeysPrefixFree()
    ensures PrefixFree(Explanations)
  {
    forall i, j | 0 <= i < |Explanations| && 0 <= j < |Explanations| && i != j
      ensures !Text.StartsWith(Explanations[j].0, Explanations[i].0)
    {
      KeysDiffer(i, j);
    }
  }

  /** Two different keys differ at the first letter, or else at the letter that tells
      apart the keys sharing it ("URL"/"Uses", "Domain is"/"Domain uses", the three
      "Certificate" keys, the two "Form" keys). */
  lemma KeysDiffer(i: int, j: int)
    requires 0 <= i < |ExplanationKeys| && 0 <= j < |ExplanationKeys| && i != j
    ensures !Text.StartsWith(ExplanationKeys[j], ExplanationKeys[i])
  {
    var a, b := ExplanationKeys[i], ExplanationKeys[j];
    var k := if a[0] != b[0] then 0 else [1, 7, 12, 12, 12, 7, 5, 5, 0, 1][i];
    Text.NotPrefixAt(b, a, k);
  }

  lemma {:induction false} CommonPrefix(reason: string, a: string, b: string)
    requires Text.StartsWith(reason, a) && Text.StartsWith(reason, b) && |a| <= |b|
    ensures Text.StartsWith(b, a)
  {
    assert b[..|a|] == reason[..|b|][..|a|];
  }

  /** Since the keys are prefix-free, at most one key is a prefix of any reason, so
      the order of the scan never decides which explanation is shown. */
  lemma PrefixMatchUnique(reason: string, i: int, j: int)
    requires 0 <= i < |Explanations| && 0 <= j < |Explanations|
    requires Text.StartsWith(reason, Explanations[i].0) && Text.StartsWith(reason, Explanations[j].0)
    ensures i == j
  {
    ExplanationKeysPrefixFree();
    if |Explanations[i].0| <= |Explanations[j].0| {
      CommonPrefix(reason, Explanations[i].0, Explanations[j].0);
    } else {
      CommonPrefix(reason, Explanations[j].0, Explanations[i].0);
    }
  }

  /** The backend's age reason "Domain is less than 30 days old (created: …)" is
      explained by the age entry, found by prefix. */
  lemma AgeReasonExplained(created: string)
    ensures Lookup(Explanations, "Domain is less than 30 days old (created: " + created + ")")
      == Some(Explanations[1].1)
  {
    var reason := "Domain is less than 30 days old (created: " + created + ")";
    var t := Explanations;
    assert reason[..|t[1].0|] == t[1].0;
    forall i | 0 <= i < |t| ensures t[i].0 != reason {
      assert |t[i].0| < |reason|;
    }
    Text.NotPrefixAt(reason, t[0].0, 0);
    assert FirstPrefixAt(t, reason, 1);
    FirstPrefixUnique(t, reason, 1);
  }

  /** The brand producer's reasons start "Domain similar to", which no key is a prefix
      of ("Label similar to" never matches), so they are shown without explanation. */
  lemma BrandReasonUnexplained(m: Brand.SimilarBrand)
    ensures Lookup(Explanations, Brand.ReasonFor(m)) == None
  {
    var reason := Brand.ReasonFor(m);
    var t := Explanations;
    Brand.ReasonMentions(m);
    assert reason[..18] == "Domain similar to ";
    forall i | 0 <= i < |t| ensures !Text.StartsWith(reason, t[i].0) && t[i].0 != reason {
      var k := if t[i].0[0] == 'D' then 7 else 0;
      assert reason[k] == "Domain similar to "[k];
      Text.NotPrefixAt(reason, t[i].0, k);
    }
  }

  /** The backend's certificate reasons all start "SSL certificate", a prefix of no
      key, so none of them is explained (the page's own certificate list uses other
      wording). */
  lemma SslReasonUnexplained(reason: string)
    requires Text.StartsWith(reason, "SSL ")
    ensures Lookup(Explanations, reason) == None
  {
    var t := Explanations;
    assert reason[0] == 'S';
    forall i | 0 <= i < |t| ensures !Text.StartsWith(reason, t[i].0) && t[i].0 != reason {
      Text.NotPrefixAt(reason, t[i].0, 0);
    }
  }

  /** The place of a certificate entry in the order mismatch, expired, not yet valid;
      3 for anything else. */
  function SslRank(reason: string): nat {
    if reason == "Certificate domain mismatch" then 0
    else if reason == "Certificate expired" then 1
    else if reason == "Certificate not yet valid" then 2
    else 3
  }

  /** The certificate reason list, shown only for an invalid certificate: mismatch,
      expired, not yet valid, each when its flag is truthy (a missing flag is falsy). */
  function SslReasonList(ssl: Ssl.SslResult): (shown: Option<seq<string>>)
    ensures shown.Some? <==> !ssl.isValid
    ensures shown.Some? ==> |shown.value| <= 3
    ensures shown.Some? ==> ("Certificate domain mismatch" in shown.value <==> !Truthy(ssl.domainMatch))
    ensures shown.Some? ==> ("Certificate expired" in shown.value <==> Truthy(ssl.isExpired))
    ensures shown.Some? ==> ("Certificate not yet valid" in shown.value <==> Truthy(ssl.isNotValidYet))
    ensures shown.Some? ==> forall k :: 0 <= k < |shown.value| ==> SslRank(shown.value[k]) < 3
    ensures shown.Some? ==> forall a, b :: 0 <= a < b < |shown.value| ==>
      SslRank(shown.value[a]) < SslRank(shown.value[b]) && shown.value[a] != shown.value[b]
  {
    if ssl.isValid then None
    else
      Some((if !Truthy(ssl.domainMatch) then ["Certificate domain mismatch"] else [])
        + (if Truthy(ssl.isExpired) then ["Certificate expired"] else [])
        + (if Truthy(ssl.isNotValidYet) then ["Certificate not yet valid"] else []))
  }

  /** Every entry of the certificate list is itself a key, so each gets its explanation. */
  lemma SslListExplained(ssl: Ssl.SslResult)
    requires SslReasonList(ssl).Some?
    ensures forall k :: 0 <= k < |SslReasonList(ssl).value| ==>
      Lookup(Explanations, SslReasonList(ssl).value[k]).Some?
  {
    var shown := SslReasonList(ssl).value;
    var t := Explanations;
    assert t[2].0 == "Certificate domain mismatch" && t[3].0 == "Certificate expired"
      && t[4].0 == "Certificate not yet valid";
    forall k | 0 <= k < |shown| ensures Lookup(t, shown[k]).Some? {
      assert shown[k] == t[2].0 || shown[k] == t[3].0 || shown[k] == t[4].0;
    }
  }

  /** The certificate's error record (no `domain_match`) shows just the mismatch line. */
  lemma SslErrorShowsMismatch(message: string)
    ensures SslReasonList(Ssl.ErrorResult(message)) == Some(["Certificate domain mismatch"])
  {
    var mismatch: seq<string> := ["Certificate domain mismatch"];
    assert mismatch + [] + [] == mismatch;
  }

  /** The row status: "Suspicious" only for a listed, valid PhishTank entry. */
  function RowStatus(entry: Routes.PhishingCheckResult): string {
    if entry.phishtank.Some? && Truthy(entry.phishtank.value.inDatabase) && Truthy(entry.phishtank.value.valid)
    then "Suspicious" else "Safe"
  }

  /** The status is "Suspicious" exactly for an entry PhishTank lists as in its database
      and valid, and "Safe" otherwise. */
  lemma RowStatusRule(entry: Routes.PhishingCheckResult)
    ensures RowStatus(entry) == "Suspicious" || RowStatus(entry) == "Safe"
    ensures RowStatus(entry) == "Suspicious" <==>
      entry.phishtank.Some? && Truthy(entry.phishtank.value.inDatabase) && Truthy(entry.phishtank.value.valid)
  {
  }

  /** The status depends on the PhishTank listing only: two entries with the same listing
      get the same status whatever their verdicts, reasons or other producer records, so
      a URL judged phishing only by, say, its certificate is shown as "Safe". */
  lemma RowStatusDependsOnListing(e1: Routes.PhishingCheckResult, e2: Routes.PhishingCheckResult)
    requires e1.phishtank == e2.phishtank
    ensures RowStatus(e1) == RowStatus(e2)
  {
  }

  /** `[{ ...result }, ...prev]`. */
  function Prepend(entry: Routes.PhishingCheckResult, previous: seq<Routes.PhishingCheckResult>)
    : (h: seq<Routes.PhishingCheckResult>)
    ensures |h| == |previous| + 1 && h[0] == entry && h[1..] == previous
  {
    [entry] + previous
  }

  /** What the POST to the backend gave: the parsed result, or the exception's message. */
  datatype Response = Answered(result: Routes.PhishingCheckResult) | Threw(message: string)

  const InvalidUrlError := "Please enter a valid URL (including http:// or https://)"

  /** The component's state. */
  class Checker {
    var inputUrl: string
    var history: seq<Routes.PhishingCheckResult>
    var error: Option<string>

    constructor ()
      ensures inputUrl == "" && history == [] && error == None
    {
      inputUrl := "";
      history := [];
      error := None;
    }

    /** The input's `onChange`. */
    method SetInput(url: string)
      modifies this
      ensures inputUrl == url && history == old(history) && error == old(error)
    {
      inputUrl := url;
    }

    /** `checkUrl`: an invalid URL sets the error and leaves the history alone; an
        answer is put in front of the history and clears the input; a failed request
        records its message. */
    method CheckUrl(isValidUrl: string -> bool, post: string -> Response)
      modifies this
      ensures !isValidUrl(old(inputUrl)) ==>
        error == Some(InvalidUrlError) && history == old(history) && inputUrl == old(inputUrl)
      ensures isValidUrl(old(inputUrl)) && post(old(inputUrl)).Answered? ==>
        history == Prepend(post(old(inputUrl)).result, old(history)) && inputUrl == "" && error == None
      ensures isValidUrl(old(inputUrl)) && post(old(inputUrl)).Threw? ==>
        error == Some("Error checking URL: " + post(old(inputUrl)).message)
        && history == old(history) && inputUrl == old(inputUrl)
    {
      error := None;
      if !isValidUrl(inputUrl) {
        error := Some(InvalidUrlError);
        return;
      }
      match post(inputUrl)
      case Answered(result) =>
        history := Prepend(result, history);
        inputUrl := "";
      case Threw(message) =>
        error := Some("Error checking URL: " + message);
    }
  }
}
