/** The dynamic-DNS provider check. The provider list file is given as its lines. */
module DynamicDns {
  import Text

  datatype DdnsResult = DdnsResult(isDynamicDns: bool, domain: string)

  /** A line of the list file that yields an entry: not blank after stripping, and
      not starting with "#" in its raw (unstripped) form. */
  predicate Kept(line: string) {
    Text.Strip(line) != "" && !Text.StartsWith(line, "#")
  }

  /** A line is kept exactly when it has a character that is not white space and its
      first character is not "#". */
  lemma KeptLine(line: string)
    ensures Kept(line) <==>
      (exists i :: 0 <= i < |line| && !Text.IsSpace(line[i])) && !Text.StartsWith(line, "#")
  {
    Text.StripEmpty(line);
  }

  function Entry(line: string): string {
    Text.Lower(Text.Strip(line))
  }

  /** `_load_domains`: the set of stripped, lower-cased kept lines. */
  function LoadDomains(lines: seq<string>): (domains: set<string>)
    ensures forall d :: d in domains <==> exists k :: 0 <= k < |lines| && Kept(lines[k]) && Entry(lines[k]) == d
  {
    set k | 0 <= k < |lines| && Kept(lines[k]) :: Entry(lines[k])
  }

  /** No loaded entry is empty, has an upper-case letter, or starts or ends with white space. */
  lemma EntriesAreClean(lines: seq<string>)
    ensures forall d :: d in LoadDomains(lines) ==> Clean(d)
  {
    forall d | d in LoadDomains(lines) ensures Clean(d) {
      var k :| 0 <= k < |lines| && Kept(lines[k]) && Entry(lines[k]) == d;
      EntryIsClean(lines[k]);
    }
  }

  predicate Clean(d: string) {
    && d != ""
    && (forall i :: 0 <= i < |d| ==> !Text.IsUpper(d[i]))
    && !Text.IsSpace(d[0]) && !Text.IsSpace(d[|d| - 1])
  }

  lemma EntryIsClean(line: string)
    requires Kept(line)
    ensures Clean(Entry(line))
  {
    var s := Text.Strip(line);
    var d := Entry(line);
    Text.StripEnds(line);
    assert |d| == |s| && s != [];
    forall i | 0 <= i < |d| ensures !Text.IsUpper(d[i]) {
      assert d[i] == Text.LowerChar(s[i]);
    }
    assert d[0] == Text.LowerChar(s[0]);
    assert d[|d| - 1] == Text.LowerChar(s[|s| - 1]);
    NotSpaceAfterLower(s[0]);
    NotSpaceAfterLower(s[|s| - 1]);
  }

  /** Lower-casing never turns a character into white space. */
  lemma NotSpaceAfterLower(c: char)
    requires !Text.IsSpace(c)
    ensures !Text.IsSpace(Text.LowerChar(c))
  {
  }

  /** `domain.lower().lstrip("www.")`: strips the leading run of 'w' and '.' characters. */
  function Normalise(domain: string): (n: string)
    ensures n != [] ==> n[0] != 'w' && n[0] != '.'
    ensures |n| <= |domain| && n == Text.Lower(domain)[|domain| - |n|..]
    ensures forall i :: 0 <= i < |domain| - |n| ==> Text.Lower(domain)[i] in {'w', '.'}
  {
    Text.LStripChars(Text.Lower(domain), {'w', '.'})
  }

  predicate Covers(entry: string, normalised: string) {
    normalised == entry || Text.EndsWith(normalised, "." + entry)
  }

  /** `is_dynamic_dns`. */
  predicate IsDynamicDns(domains: set<string>, domain: string) {
    exists dd :: dd in domains && Covers(dd, Normalise(domain))
  }

  /** `check_domain`: the flag, with the domain echoed as given (not normalised). */
  function CheckDomain(domains: set<string>, domain: string): (r: DdnsResult)
    ensures r.domain == domain
    ensures r.isDynamicDns <==> exists dd :: dd in domains && Covers(dd, Normalise(domain))
  {
    DdnsResult(IsDynamicDns(domains, domain), domain)
  }

  /** Normalisation removes a character set, not the prefix "www.": any leading run of
      'w' and '.' goes, so "wdyndns.org" is read as "dyndns.org" and "webhop.me" as
      "ebhop.me". */
  lemma {:induction false} LeadingRunIgnored(run: string, rest: string)
    requires forall i :: 0 <= i < |run| ==> run[i] in {'w', '.'}
    requires rest != [] && Text.LowerChar(rest[0]) !in {'w', '.'}
    ensures Normalise(run + rest) == Text.Lower(rest)
  {
    Text.LowerAppend(run, rest);
    Text.LowerFixes(run);
    StripRun(run, Text.Lower(rest), {'w', '.'});
  }

  lemma {:induction false} StripRun(run: string, rest: string, chars: set<char>)
    requires forall i :: 0 <= i < |run| ==> run[i] in chars
    requires rest != [] && rest[0] !in chars
    ensures Text.LStripChars(run + rest, chars) == rest
    decreases |run|
  {
    if run == [] {
      assert run + rest == rest;
    } else {
      assert (run + rest)[1..] == run[1..] + rest;
      StripRun(run[1..], rest, chars);
    }
  }

  /** Because a leading run of 'w' and '.' is dropped: with "dyndns.org" listed,
      "wdyndns.org" is judged dynamic although it is a different registered domain. */
  lemma WrongPrefixReadAsProvider()
    ensures IsDynamicDns({"dyndns.org"}, "wdyndns.org")
  {
    assert "wdyndns.org" == "w" + "dyndns.org";
    RunBeforeEntry({"dyndns.org"}, "dyndns.org", "w");
  }

  /** A run of 'w' and '.' put in front of a listed lower-case entry is read as the entry. */
  lemma RunBeforeEntry(domains: set<string>, entry: string, run: string)
    requires entry in domains
    requires forall i :: 0 <= i < |run| ==> run[i] in {'w', '.'}
    requires entry != [] && Text.LowerChar(entry[0]) !in {'w', '.'}
    requires forall i :: 0 <= i < |entry| ==> !Text.IsUpper(entry[i])
    ensures IsDynamicDns(domains, run + entry)
  {
    LeadingRunIgnored(run, entry);
    Text.LowerFixes(entry);
    assert Covers(entry, Normalise(run + entry));
  }

  /** A subdomain of a listed lower-case entry that does not start with 'w' or '.' is
      dynamic, whatever its first label, "www" included. */
  lemma SubdomainOfEntry(domains: set<string>, entry: string, first: string)
    requires entry in domains
    requires entry != [] && Text.LowerChar(entry[0]) !in {'w', '.'}
    requires forall i :: 0 <= i < |first + "." + entry| ==> !Text.IsUpper((first + "." + entry)[i])
    ensures IsDynamicDns(domains, first + "." + entry)
  {
    var d := first + "." + entry;
    Text.LowerFixes(d);
    assert d[|first| + 1] == entry[0];
    CoversAfterStrip(first, entry, {'w', '.'});
    assert Covers(entry, Normalise(d));
  }

  /** Stripping a character set that does not hold the entry's first character from
      first + "." + entry stops inside the first label, leaving a name that ends in
      "." + entry, or just before the entry. */
  lemma CoversAfterStrip(first: string, entry: string, chars: set<char>)
    requires entry != [] && entry[0] !in chars
    ensures Covers(entry, Text.LStripChars(first + "." + entry, chars))
  {
    var d := first + "." + entry;
    assert d[|first| + 1] == entry[0];
    assert d[|first|..] == "." + entry;
    StripCovers(d, |first|, entry, chars);
  }

  lemma StripCovers(d: string, p: nat, entry: string, chars: set<char>)
    requires p + 1 + |entry| == |d| && d[p..] == "." + entry
    requires entry != [] && d[p + 1] !in chars
    ensures Covers(entry, Text.LStripChars(d, chars))
  {
    var n := Text.LStripChars(d, chars);
    assert |d| - |n| <= p + 1;
    if |d| - |n| == p + 1 {
      assert n == d[p..][1..];
    } else {
      assert n[|n| - |"." + entry|..] == d[p..];
    }
  }

  /** The strip can also eat into a listed entry: with "webhop.me" listed,
      "www.webhop.me" normalises to "ebhop.me" and is not judged dynamic. */
  lemma WwwBeforeWEntryMissed()
    ensures !IsDynamicDns({"webhop.me"}, "www.webhop.me")
  {
    assert "webhop.me" == "w" + "ebhop.me";
    assert "www.webhop.me" == "www.w" + "ebhop.me";
    WEntryEaten("ebhop.me");
  }

  /** An entry "w" + rest is not matched by "www." in front of it: the strip removes
      its 'w' too and leaves only rest. */
  lemma WEntryEaten(rest: string)
    requires rest != [] && Text.LowerChar(rest[0]) !in {'w', '.'}
    requires forall i :: 0 <= i < |rest| ==> !Text.IsUpper(rest[i])
    ensures !IsDynamicDns({"w" + rest}, "www.w" + rest)
  {
    LeadingRunIgnored("www.w", rest);
    Text.LowerFixes(rest);
    ShorterNotCovered("w" + rest, rest);
  }

  lemma ShorterNotCovered(entry: string, n: string)
    requires |n| < |entry|
    ensures !Covers(entry, n)
  {
  }
}
