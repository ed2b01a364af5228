/** Brand-impersonation check: the target host against a fixed table of brand
    domains, by Levenshtein edit distance. */
module Brand {
  import opened Wrappers
  import Text

  /** The brand table in the insertion order of the source's dictionary. */
  const Brands: seq<(string, seq<string>)> := [
    ("google", ["google.com", "gmail.com"]),
    ("microsoft", ["microsoft.com", "outlook.com", "hotmail.com"]),
    ("apple", ["apple.com", "icloud.com"]),
    ("amazon", ["amazon.com", "amazon.com.br"]),
    ("facebook", ["facebook.com", "fb.com"]),
    ("netflix", ["netflix.com"]),
    ("spotify", ["spotify.com"]),
    ("nubank", ["nubank.com.br"]),
    ("itau", ["itau.com.br"]),
    ("bradesco", ["bradesco.com.br"]),
    ("santander", ["santander.com.br"]),
    ("bb", ["bb.com.br"]),
    ("caixa", ["caixa.gov.br"])
  ]

  const IgnoredDomains: set<string> := {
    "example.com", "example.org", "example.net",
    "test.com", "test.org", "test.net",
    "localhost", "127.0.0.1"
  }

  /** A distance at most this makes a brand domain "similar". */
  const Threshold := 3

  datatype SimilarBrand = SimilarBrand(brand: string, originalDomain: string, similarityScore: nat)

  datatype BrandResult = BrandResult(
    isSuspicious: Option<bool>,
    reasons: Option<seq<string>>,
    similarBrands: seq<SimilarBrand>,
    targetDomain: string)

  /** `_get_domain`: the lower-cased netloc of the URL. */
  function GetDomain(netloc: string): string {
    Text.Lower(netloc)
  }

  predicate ShouldIgnore(domain: string) {
    domain in IgnoredDomains
  }

  function Min3(a: nat, b: nat, c: nat): nat {
    if a <= b && a <= c then a else if b <= c then b else c
  }

  /** Levenshtein distance: insertions, deletions and substitutions of one character. */
  function EditDistance(a: string, b: string): nat
    decreases |a| + |b|
  {
    if a == [] then |b|
    else if b == [] then |a|
    else if a[0] == b[0] then EditDistance(a[1..], b[1..])
    else 1 + Min3(EditDistance(a[1..], b), EditDistance(a, b[1..]), EditDistance(a[1..], b[1..]))
  }

  /** The distance is zero exactly for equal strings. */
  lemma {:induction false} EditDistanceZero(a: string, b: string)
    ensures EditDistance(a, b) == 0 <==> a == b
    decreases |a| + |b|
  {
    if a != [] && b != [] && a[0] == b[0] {
      EditDistanceZero(a[1..], b[1..]);
      if a[1..] == b[1..] {
        assert a == [a[0]] + a[1..] && b == [b[0]] + b[1..];
      }
    }
  }

  /** The distance is at least the difference of the lengths, so a brand domain whose
      length differs from the target's by more than the threshold is never similar. */
  lemma {:induction false} EditDistanceLengthBound(a: string, b: string)
    ensures EditDistance(a, b) >= |a| - |b| && EditDistance(a, b) >= |b| - |a|
    decreases |a| + |b|
  {
    if a != [] && b != [] {
      EditDistanceLengthBound(a[1..], b[1..]);
      if a[0] != b[0] {
        EditDistanceLengthBound(a[1..], b);
        EditDistanceLengthBound(a, b[1..]);
      }
    }
  }

  function ReasonFor(m: SimilarBrand): string {
    "Domain similar to " + m.brand + " (" + m.originalDomain + ") - " + "similarity score: "
      + Text.NatToString(m.similarityScore)
  }

  /** Each reason names the brand, the brand domain and the score at fixed places. */
  lemma ReasonMentions(m: SimilarBrand)
    ensures Text.StartsWith(ReasonFor(m), "Domain similar to ")
    ensures Text.OccursAt(ReasonFor(m), m.brand, 18)
    ensures Text.OccursAt(ReasonFor(m), m.originalDomain, 20 + |m.brand|)
    ensures Text.EndsWith(ReasonFor(m), "similarity score: " + Text.NatToString(m.similarityScore))
  {
    var a, b, c := "Domain similar to ", m.brand, " (";
    var d, e := m.originalDomain, ") - ";
    var tail := "similarity score: " + Text.NatToString(m.similarityScore);
    assert ReasonFor(m) == a + b + c + d + e + tail;
    PieceAt([], a, b + c + d + e + tail);
    PieceAt(a, b, c + d + e + tail);
    PieceAt(a + b + c, d, e + tail);
    PieceAt(a + b + c + d + e, tail, []);
  }

  /** The middle piece of a concatenation sits at the length of the first one. */
  lemma PieceAt(x: string, y: string, z: string)
    ensures (x + y + z)[|x|..|x| + |y|] == y
  {
  }

  /** The matches among the domains of one brand, in the brand's domain order. */
  function DomainMatches(target: string, brand: string, domains: seq<string>): seq<SimilarBrand>
    decreases |domains|
  {
    if domains == [] then []
    else
      var last := domains[|domains| - 1];
      var d := EditDistance(target, last);
      DomainMatches(target, brand, domains[..|domains| - 1])
        + (if d <= Threshold then [SimilarBrand(brand, last, d)] else [])
  }

  /** All matches, in table order and then domain order. */
  function Matches(target: string, table: seq<(string, seq<string>)>): seq<SimilarBrand>
    decreases |table|
  {
    if table == [] then []
    else
      var last := table[|table| - 1];
      Matches(target, table[..|table| - 1]) + DomainMatches(target, last.0, last.1)
  }

  /** Domain j of a brand is similar to the target and m records it. */
  predicate HitAt(target: string, brand: string, domains: seq<string>, j: int, m: SimilarBrand) {
    0 <= j < |domains| && EditDistance(target, domains[j]) <= Threshold &&
    m == SimilarBrand(brand, domains[j], EditDistance(target, domains[j]))
  }

  /** Domain j of brand i of the table is similar to the target and m records it. */
  predicate ListedAt(target: string, table: seq<(string, seq<string>)>, i: int, j: int, m: SimilarBrand) {
    0 <= i < |table| && HitAt(target, table[i].0, table[i].1, j, m)
  }

  lemma {:induction false} HitIsMatched(target: string, brand: string, domains: seq<string>, j: int, m: SimilarBrand)
    requires HitAt(target, brand, domains, j, m)
    ensures m in DomainMatches(target, brand, domains)
    decreases |domains|
  {
    var init := domains[..|domains| - 1];
    if j < |init| {
      assert HitAt(target, brand, init, j, m);
      HitIsMatched(target, brand, init, j, m);
    }
  }

  lemma {:induction false} MatchedIsHit(target: string, brand: string, domains: seq<string>, m: SimilarBrand)
    returns (j: int)
    requires m in DomainMatches(target, brand, domains)
    ensures HitAt(target, brand, domains, j, m)
    decreases |domains|
  {
    var init := domains[..|domains| - 1];
    if m in DomainMatches(target, brand, init) {
      j := MatchedIsHit(target, brand, init, m);
      assert domains[j] == init[j];
    } else {
      j := |domains| - 1;
    }
  }

  /** A (brand, domain, score) triple is among the matches of one brand exactly when
      the domain is one of the brand's, and the score is its distance to the target, at
      most 3. */
  lemma DomainMatchesMembership(target: string, brand: string, domains: seq<string>, m: SimilarBrand)
    ensures m in DomainMatches(target, brand, domains) <==> exists j :: HitAt(target, brand, domains, j, m)
  {
    if m in DomainMatches(target, brand, domains) {
      var j := MatchedIsHit(target, brand, domains, m);
    }
    if exists j :: HitAt(target, brand, domains, j, m) {
      var j :| HitAt(target, brand, domains, j, m);
      HitIsMatched(target, brand, domains, j, m);
    }
  }

  lemma {:induction false} ListedIsMatched(target: string, table: seq<(string, seq<string>)>, i: int, j: int, m: SimilarBrand)
    requires ListedAt(target, table, i, j, m)
    ensures m in Matches(target, table)
    decreases |table|
  {
    var init := table[..|table| - 1];
    var last := table[|table| - 1];
    if i < |init| {
      assert ListedAt(target, init, i, j, m);
      ListedIsMatched(target, init, i, j, m);
    } else {
      HitIsMatched(target, last.0, last.1, j, m);
    }
  }

  lemma {:induction false} MatchedIsListed(target: string, table: seq<(string, seq<string>)>, m: SimilarBrand)
    returns (i: int, j: int)
    requires m in Matches(target, table)
    ensures ListedAt(target, table, i, j, m)
    decreases |table|
  {
    var init := table[..|table| - 1];
    var last := table[|table| - 1];
    if m in Matches(target, init) {
      i, j := MatchedIsListed(target, init, m);
      assert table[i] == init[i];
    } else {
      i := |table| - 1;
      j := MatchedIsHit(target, last.0, last.1, m);
    }
  }

  /** A (brand, domain, score) triple is listed exactly when the domain is one of the
      brand's domains, the score is its edit distance to the target, and that distance
      is at most 3. */
  lemma MatchesMembership(target: string, table: seq<(string, seq<string>)>, m: SimilarBrand)
    ensures m in Matches(target, table) <==> exists i, j :: ListedAt(target, table, i, j, m)
  {
    if m in Matches(target, table) {
      var i, j := MatchedIsListed(target, table, m);
    }
    if exists i, j :: ListedAt(target, table, i, j, m) {
      var i, j :| ListedAt(target, table, i, j, m);
      ListedIsMatched(target, table, i, j, m);
    }
  }

  /** A target that is itself one of the table's domains is flagged, with score 0
      (in particular for the brand table `Brands`). */
  lemma ExactDomainFlagged(target: string, table: seq<(string, seq<string>)>, i: nat, j: nat)
    requires i < |table| && j < |table[i].1| && target == table[i].1[j]
    ensures SimilarBrand(table[i].0, target, 0) in Matches(target, table)
  {
    EditDistanceZero(target, target);
    assert ListedAt(target, table, i, j, SimilarBrand(table[i].0, target, 0));
    MatchesMembership(target, table, SimilarBrand(table[i].0, target, 0));
  }

  /** `check_similarity` for a URL whose netloc is `netloc`. */
  method CheckSimilarity(netloc: string) returns (r: BrandResult)
    ensures r.targetDomain == GetDomain(netloc)
    ensures ShouldIgnore(r.targetDomain) ==> r == BrandResult(Some(false), Some([]), [], r.targetDomain)
    ensures !ShouldIgnore(r.targetDomain) ==> r.similarBrands == Matches(r.targetDomain, Brands)
    ensures r.reasons.Some? && |r.reasons.value| == |r.similarBrands|
    ensures forall k :: 0 <= k < |r.similarBrands| ==> r.reasons.value[k] == ReasonFor(r.similarBrands[k])
    ensures r.isSuspicious == Some(|r.similarBrands| > 0)
    ensures Truthy(r.isSuspicious) ==> r.reasons.Some? && r.reasons.value != []
  {
    var target := GetDomain(netloc);
    if ShouldIgnore(target) {
      return BrandResult(Some(false), Some([]), [], target);
    }
    var similar, reasons := ScanTable(target, Brands);
    r := BrandResult(Some(|similar| > 0), Some(reasons), similar, target);
  }

  /** Reasons that describe the matches one by one. */
  ghost predicate Describes(reasons: seq<string>, similar: seq<SimilarBrand>) {
    |reasons| == |similar| && forall k :: 0 <= k < |similar| ==> reasons[k] == ReasonFor(similar[k])
  }

  /** The outer loop of `check_similarity`, over the brands of a table. */
  method ScanTable(target: string, table: seq<(string, seq<string>)>)
    returns (similar: seq<SimilarBrand>, reasons: seq<string>)
    ensures similar == Matches(target, table)
    ensures |reasons| == |similar|
    ensures forall k :: 0 <= k < |similar| ==> reasons[k] == ReasonFor(similar[k])
  {
    similar, reasons := [], [];
    var i := 0;
    while i < |table|
      invariant 0 <= i <= |table|
      invariant similar == Matches(target, table[..i])
      invariant Describes(reasons, similar)
    {
      var (brand, domains) := table[i];
      similar, reasons := ScanDomains(target, brand, domains, similar, reasons);
      assert table[..i + 1][..i] == table[..i];
      i := i + 1;
    }
    assert table[..i] == table;
  }

  /** The inner loop: the similar domains of one brand, appended to what was found so far. */
  method ScanDomains(target: string, brand: string, domains: seq<string>,
                     before: seq<SimilarBrand>, beforeReasons: seq<string>)
    returns (similar: seq<SimilarBrand>, reasons: seq<string>)
    requires Describes(beforeReasons, before)
    ensures similar == before + DomainMatches(target, brand, domains)
    ensures Describes(reasons, similar)
  {
    similar, reasons := before, beforeReasons;
    var j := 0;
    while j < |domains|
      invariant 0 <= j <= |domains|
      invariant similar == before + DomainMatches(target, brand, domains[..j])
      invariant Describes(reasons, similar)
    {
      var score := EditDistance(target, domains[j]);
      if score <= Threshold {
        var found := SimilarBrand(brand, domains[j], score);
        similar := similar + [found];
        reasons := reasons + [ReasonFor(found)];
      }
      assert domains[..j + 1][..j] == domains[..j];
      j := j + 1;
    }
    assert domains[..j] == domains;
  }
}
