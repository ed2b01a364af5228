/** The redirect follower. HTTP HEAD and GET are oracles from a URL to a reply;
    URL cleaning (`_clean_url`, which uses `quote`), `urljoin`, `urlparse(..).netloc`
    and tldextract's registered domain are functions supplied by the caller. */
module Redirects {
  import opened Wrappers
  import Text

  const MaxRedirects := 5

  const SuspiciousDomains: set<string> := {
    "bit.ly", "tinyurl.com", "goo.gl", "t.co",
    "freehosting.com", "000webhost.com",
    "herokuapp.com", "netlify.app", "vercel.app"
  }

  /** Hosts of login flows that legitimately redirect several times. */
  const AuthDomains: set<string> := {
    "accounts.google.com",
    "login.microsoftonline.com",
    "login.live.com",
    "appleid.apple.com",
    "auth.amazon.com",
    "facebook.com",
    "accounts.spotify.com",
    "login.nubank.com.br",
    "login.itau.com.br",
    "login.bradesco.com.br",
    "login.bb.com.br",
    "login.caixa.gov.br"
  }

  /** A reply to HEAD or GET: status and `Location` header, or the exception's text. */
  datatype HttpReply = Reply(status: int, location: Option<string>) | Raised(message: string)

  /** The network and the URL library, as the follower sees them. */
  datatype Web = Web(
    head: string -> HttpReply,
    get: string -> HttpReply,
    clean: string -> string,
    join: (string, string) -> string,
    netloc: string -> string,
    registered: string -> string)

  datatype RedirectResult = RedirectResult(
    isSuspicious: Option<bool>,
    reasons: Option<seq<string>>,
    redirectChain: seq<string>,
    domainsVisited: set<string>,
    finalUrl: string)

  /** The lower-cased netloc of a URL. */
  function Host(url: string, web: Web): string {
    Text.Lower(web.netloc(url))
  }

  function StripWww(d: string): string {
    if Text.StartsWith(d, "www.") then d[4..] else d
  }

  /** `_is_www_redirect`: equal after lower-casing and dropping one leading "www." from each. */
  predicate IsWwwRedirect(domain1: string, domain2: string) {
    StripWww(Text.Lower(domain1)) == StripWww(Text.Lower(domain2))
  }

  /** The relation is symmetric, and two hosts count as a "www" redirect when,
      lower-cased, they are equal or one is the other with "www." in front; "www." in front of a host that itself starts with
      "www." is stripped once only, so "www.www.a.com" and "www.a.com" differ. */
  lemma WwwRedirectCases(domain1: string, domain2: string)
    ensures var a, b := Text.Lower(domain1), Text.Lower(domain2);
      IsWwwRedirect(domain1, domain2) ==> a == b || a == "www." + b || b == "www." + a
    ensures var a, b := Text.Lower(domain1), Text.Lower(domain2);
      (a == b || (a == "www." + b && !Text.StartsWith(b, "www.")) || (b == "www." + a && !Text.StartsWith(a, "www.")))
        ==> IsWwwRedirect(domain1, domain2)
    ensures IsWwwRedirect(domain1, domain2) <==> IsWwwRedirect(domain2, domain1)
  {
    var a, b := Text.Lower(domain1), Text.Lower(domain2);
    if Text.StartsWith(a, "www.") {
      assert a == "www." + a[4..];
    }
    if Text.StartsWith(b, "www.") {
      assert b == "www." + b[4..];
    }
    if a == "www." + b {
      assert a[..4] == "www." && a[4..] == b;
    }
    if b == "www." + a {
      assert b[..4] == "www." && b[4..] == a;
    }
  }

  /** One leading "www." is dropped per side, so "www.www." + d never matches "www." + d. */
  lemma WwwStrippedOnce(d: string)
    ensures !IsWwwRedirect("www.www." + d, "www." + d)
  {
    var l := Text.Lower(d);
    Text.LowerAppend("www.www.", d);
    Text.LowerAppend("www.", d);
    Text.LowerFixes("www.www.");
    Text.LowerFixes("www.");
    assert ("www.www." + l)[..4] == "www." && ("www.www." + l)[4..] == "www." + l;
    assert ("www." + l)[..4] == "www." && ("www." + l)[4..] == l;
  }

  /** `_is_auth_flow`. */
  predicate IsAuthFlow(url: string, web: Web) {
    Host(url, web) in AuthDomains
  }

  /** Python truthiness of the header value: present and non-empty. */
  predicate Present(location: Option<string>) {
    location.Some? && location.value != ""
  }

  /** The next URL for a `Location` value seen at `current`. */
  function Target(current: string, location: string, web: Web): string {
    web.clean(if Text.StartsWith(location, "http://") || Text.StartsWith(location, "https://")
              then location else web.join(current, location))
  }

  datatype Step = Done | Next(url: string) | Fault(message: string)

  /** One probe of `current`: HEAD, and GET when HEAD gave a 3xx without a Location. */
  function StepFrom(current: string, web: Web): Step {
    match web.head(current)
    case Raised(m) => Fault(m)
    case Reply(status, headLocation) =>
      if !(300 <= status < 400) then Done
      else if Present(headLocation) then Next(Target(current, headLocation.value, web))
      else
        match web.get(current)
        case Raised(m) => Fault(m)
        case Reply(_, getLocation) =>
          if Present(getLocation) then Next(Target(current, getLocation.value, web)) else Done
  }

  /** What one probe decides: a failed request is a fault; a non-3xx HEAD reply ends
      the chain; a 3xx HEAD reply with a Location redirects there whatever a GET would
      say; otherwise the GET's Location, if any, is followed. */
  lemma StepFromRules(current: string, web: Web)
    ensures web.head(current).Raised? ==> StepFrom(current, web) == Fault(web.head(current).message)
    ensures web.head(current).Reply? && !(300 <= web.head(current).status < 400) ==>
      StepFrom(current, web) == Done
    ensures (web.head(current).Reply? && 300 <= web.head(current).status < 400
             && Present(web.head(current).location)) ==>
      StepFrom(current, web) == Next(Target(current, web.head(current).location.value, web))
    ensures StepFrom(current, web).Next? ==>
      && web.head(current).Reply? && 300 <= web.head(current).status < 400
      && (|| (Present(web.head(current).location)
              && StepFrom(current, web).url == Target(current, web.head(current).location.value, web))
          || (!Present(web.head(current).location) && web.get(current).Reply?
              && Present(web.get(current).location)
              && StepFrom(current, web).url == Target(current, web.get(current).location.value, web)))
    ensures StepFrom(current, web).Done? ==>
      && web.head(current).Reply?
      && (|| !(300 <= web.head(current).status < 400)
          || (!Present(web.head(current).location) && web.get(current).Reply?
              && !Present(web.get(current).location)))
  {
  }

  /** An absolute Location is only cleaned; any other is first joined to the current URL. */
  lemma TargetRule(current: string, location: string, web: Web)
    ensures Text.StartsWith(location, "http://") || Text.StartsWith(location, "https://") ==>
      Target(current, location, web) == web.clean(location)
    ensures !(Text.StartsWith(location, "http://") || Text.StartsWith(location, "https://")) ==>
      Target(current, location, web) == web.clean(web.join(current, location))
  {
  }

  datatype Outcome = Stopped(chain: seq<string>) | Looped(chain: seq<string>, repeated: string) | Failed(message: string)

  /** The loop: `current` is appended to `chain` and probed, with `left` rounds to go. */
  function Walk(current: string, chain: seq<string>, left: nat, web: Web): (o: Outcome)
    ensures left > 0 && !o.Failed? ==> |o.chain| > |chain|
    ensures o.Looped? ==> |o.chain| > |chain| + 1
    decreases left
  {
    if left == 0 then Stopped(chain)
    else
      var visited := chain + [current];
      match StepFrom(current, web)
      case Done => Stopped(visited)
      case Fault(m) => Failed(m)
      case Next(n) =>
        if n in visited then Looped(visited + [n], n) else Walk(n, visited, left - 1, web)
  }

  /** The walk extends the chain it is given, by `current` first when it runs at all,
      by at most one URL per round, and one more for the repeat that ends a loop. */
  lemma {:induction false} WalkShape(current: string, chain: seq<string>, left: nat, web: Web)
    ensures var o := Walk(current, chain, left, web);
      o.Stopped? ==> |chain| <= |o.chain| <= |chain| + left && o.chain[..|chain|] == chain
    ensures var o := Walk(current, chain, left, web);
      o.Looped? ==> |chain| + 2 <= |o.chain| <= |chain| + left + 1 && o.chain[..|chain|] == chain
    ensures var o := Walk(current, chain, left, web);
      left > 0 && !o.Failed? ==> o.chain[|chain|] == current
    ensures var o := Walk(current, chain, left, web);
      o.Looped? ==> o.chain[|o.chain| - 1] == o.repeated && o.repeated in o.chain[..|o.chain| - 1]
    decreases left
  {
    var o := Walk(current, chain, left, web);
    if left > 0 {
      var visited := chain + [current];
      match StepFrom(current, web)
      case Done =>
        assert o.chain == visited;
      case Fault(_) =>
      case Next(n) =>
        if n in visited {
          assert o.chain == visited + [n];
          assert o.chain[..|o.chain| - 1] == visited;
          assert o.chain[..|chain|] == chain;
        } else {
          assert o == Walk(n, visited, left - 1, web);
          WalkShape(n, visited, left - 1, web);
          if !o.Failed? {
            assert o.chain[..|visited|][..|chain|] == o.chain[..|chain|];
            if o.Looped? {
              assert o.chain[..|o.chain| - 1][..|visited|] == o.chain[..|visited|];
            }
          }
        }
    }
  }

  /** Each entry of the chain redirects to the next one. */
  predicate Linked(chain: seq<string>, web: Web) {
    forall k :: 0 <= k < |chain| - 1 ==> StepFrom(chain[k], web) == Next(chain[k + 1])
  }

  predicate Distinct(s: seq<string>) {
    forall a, b :: 0 <= a < b < |s| ==> s[a] != s[b]
  }

  /** A walk that stops reports a real redirect path: every entry redirects to the
      next, no URL is visited twice, and a walk that stops before its bound stops at a
      URL that does not redirect further. */
  lemma {:induction false} WalkStopsAtEnd(current: string, chain: seq<string>, left: nat, web: Web)
    requires Linked(chain + [current], web) && Distinct(chain + [current])
    requires left > 0
    ensures var o := Walk(current, chain, left, web);
      o.Stopped? ==> (Linked(o.chain, web) && Distinct(o.chain)
        && (|o.chain| < |chain| + left ==> StepFrom(o.chain[|o.chain| - 1], web) == Done))
    decreases left
  {
    var visited := chain + [current];
    WalkStep(current, chain, left, web);
    var step := StepFrom(current, web);
    if step.Next? && step.url !in visited {
      var n := step.url;
      LinkedSnoc(visited, n, web);
      DistinctSnoc(visited, n);
      if left == 1 {
        assert Walk(n, visited, 0, web) == Stopped(visited);
      } else {
        WalkStopsAtEnd(n, visited, left - 1, web);
      }
    }
  }

  /** A walk that ends in a loop reports a chain in which every entry redirects to the
      next and only the last URL repeats an earlier one. */
  lemma {:induction false} WalkLoopsBack(current: string, chain: seq<string>, left: nat, web: Web)
    requires Linked(chain + [current], web) && Distinct(chain + [current])
    requires left > 0
    ensures var o := Walk(current, chain, left, web);
      o.Looped? ==> Linked(o.chain, web) && Distinct(o.chain[..|o.chain| - 1])
    decreases left
  {
    var visited := chain + [current];
    var o := Walk(current, chain, left, web);
    WalkStep(current, chain, left, web);
    if o.Looped? {
      assert StepFrom(current, web).Next?;
      var n := StepFrom(current, web).url;
      if n in visited {
        assert o.chain == visited + [n];
        LinkedSnoc(visited, n, web);
        assert o.chain[..|o.chain| - 1] == visited;
      } else {
        assert o == Walk(n, visited, left - 1, web);
        assert left > 1;
        LinkedSnoc(visited, n, web);
        DistinctSnoc(visited, n);
        WalkLoopsBack(n, visited, left - 1, web);
        assert Linked(o.chain, web) && Distinct(o.chain[..|o.chain| - 1]);
      }
    }
  }

  lemma LinkedSnoc(chain: seq<string>, n: string, web: Web)
    requires Linked(chain, web) && chain != [] && StepFrom(chain[|chain| - 1], web) == Next(n)
    ensures Linked(chain + [n], web)
  {
    var next := chain + [n];
    forall k | 0 <= k < |next| - 1 ensures StepFrom(next[k], web) == Next(next[k + 1]) {
      if k < |chain| - 1 {
        assert next[k] == chain[k] && next[k + 1] == chain[k + 1];
      }
    }
  }

  lemma DistinctSnoc(s: seq<string>, x: string)
    requires Distinct(s) && x !in s
    ensures Distinct(s + [x])
  {
    var t := s + [x];
    forall a, b | 0 <= a < b < |t| ensures t[a] != t[b] {
      if b < |s| {
        assert t[a] == s[a] && t[b] == s[b];
      } else {
        assert t[a] == s[a];
      }
    }
  }

  /** From the cleaned URL, the follower's chain starts with that URL and is a real
      redirect path: at most five URLs when it stops, ending at one that does not
      redirect unless the bound was reached; on a loop, at most six, the last being a
      repeat of an earlier one. */
  lemma RedirectPath(url: string, web: Web)
    ensures var o := Walk(web.clean(url), [], MaxRedirects, web);
      o.Stopped? ==> (1 <= |o.chain| <= MaxRedirects && o.chain[0] == web.clean(url)
        && Linked(o.chain, web) && Distinct(o.chain)
        && (|o.chain| < MaxRedirects ==> StepFrom(o.chain[|o.chain| - 1], web) == Done))
    ensures var o := Walk(web.clean(url), [], MaxRedirects, web);
      o.Looped? ==> (2 <= |o.chain| <= MaxRedirects + 1 && o.chain[0] == web.clean(url)
        && Linked(o.chain, web) && Distinct(o.chain[..|o.chain| - 1])
        && o.chain[|o.chain| - 1] in o.chain[..|o.chain| - 1])
  {
    WalkFrom(web.clean(url), MaxRedirects, web);
  }

  /** `RedirectPath` for any start and any positive bound. */
  lemma WalkFrom(start: string, bound: nat, web: Web)
    requires bound > 0
    ensures var o := Walk(start, [], bound, web);
      o.Stopped? ==> (1 <= |o.chain| <= bound && o.chain[0] == start
        && Linked(o.chain, web) && Distinct(o.chain)
        && (|o.chain| < bound ==> StepFrom(o.chain[|o.chain| - 1], web) == Done))
    ensures var o := Walk(start, [], bound, web);
      o.Looped? ==> (2 <= |o.chain| <= bound + 1 && o.chain[0] == start
        && Linked(o.chain, web) && Distinct(o.chain[..|o.chain| - 1])
        && o.chain[|o.chain| - 1] in o.chain[..|o.chain| - 1])
  {
    assert [] + [start] == [start];
    WalkShape(start, [], bound, web);
    WalkStopsAtEnd(start, [], bound, web);
    WalkLoopsBack(start, [], bound, web);
  }

  /** The set of lower-cased hosts of the chain's URLs. */
  function Hosts(chain: seq<string>, web: Web): (hosts: set<string>)
    ensures forall k :: 0 <= k < |chain| ==> Host(chain[k], web) in hosts
    decreases |chain|
  {
    if chain == [] then {} else Hosts(chain[..|chain| - 1], web) + {Host(chain[|chain| - 1], web)}
  }

  function TooManyReason(n: nat): string {
    "Too many redirects (" + Text.NatToString(n) + ")"
  }

  function AuthFlowReason(final: string): string {
    "Auth flow redirects to suspicious domain: " + final
  }

  function DifferentDomainReason(initial: string, final: string): string {
    "Redirects to different domain (from " + initial + " to " + final + ")"
  }

  function TooManyReasons(chain: seq<string>, authFlow: bool): seq<string> {
    if !authFlow && |chain| > 3 then [TooManyReason(|chain|)] else []
  }

  function DomainChangeReasons(initial: string, final: string, authFlow: bool, web: Web): seq<string> {
    if final != initial && !IsWwwRedirect(initial, final) then
      if authFlow then
        if web.registered(final) in SuspiciousDomains then [AuthFlowReason(final)] else []
      else [DifferentDomainReason(initial, final)]
    else []
  }

  /** The base reason rules: "Too many redirects (n)" exactly off an auth flow with more
      than three URLs; no domain-change reason when the hosts agree up to one "www.";
      an auth flow never gets the different-domain reason and gets the auth reason only
      towards a suspicious registered domain; a changed domain off an auth flow is always
      reported; at most two reasons. */
  lemma BaseReasonRules(chain: seq<string>, authFlow: bool, initial: string, final: string, web: Web)
    ensures var reasons := TooManyReasons(chain, authFlow) + DomainChangeReasons(initial, final, authFlow, web);
      |reasons| <= 2 && (TooManyReason(|chain|) in reasons <==> !authFlow && |chain| > 3)
    ensures var reasons := TooManyReasons(chain, authFlow) + DomainChangeReasons(initial, final, authFlow, web);
      initial == final || IsWwwRedirect(initial, final) ==>
        forall k :: 0 <= k < |reasons| ==> reasons[k] == TooManyReason(|chain|)
    ensures var reasons := TooManyReasons(chain, authFlow) + DomainChangeReasons(initial, final, authFlow, web);
      authFlow ==> forall k :: 0 <= k < |reasons| ==> !Text.StartsWith(reasons[k], "Redirects to different domain")
    ensures var reasons := TooManyReasons(chain, authFlow) + DomainChangeReasons(initial, final, authFlow, web);
      authFlow ==> (AuthFlowReason(final) in reasons <==>
        final != initial && !IsWwwRedirect(initial, final) && web.registered(final) in SuspiciousDomains)
    ensures var reasons := TooManyReasons(chain, authFlow) + DomainChangeReasons(initial, final, authFlow, web);
      !authFlow && final != initial && !IsWwwRedirect(initial, final) ==>
        DifferentDomainReason(initial, final) in reasons
  {
    var many := TooManyReason(|chain|);
    var auth := AuthFlowReason(final);
    var prefix := "Redirects to different domain";
    assert many[0] == 'T' && auth[0] == 'A' && DifferentDomainReason(initial, final)[0] == 'R';
    Text.NotPrefixAt(many, prefix, 0);
    Text.NotPrefixAt(auth, prefix, 0);
  }

  function UsesSuspicious(host: string): string {
    "Uses suspicious domain: " + host
  }

  /** The reasons for the visited hosts whose registered domain is a suspicious one. */
  function SuspiciousUses(hosts: set<string>, web: Web): set<string> {
    set d | d in hosts && web.registered(d) in SuspiciousDomains :: UsesSuspicious(d)
  }

  /** `tail` lists the elements of `reasons` once each, in some order. */
  predicate Enumerates(tail: seq<string>, reasons: set<string>) {
    Distinct(tail) && (set x | x in tail) == reasons
  }

  function ErrorResult(url: string, message: string, web: Web): RedirectResult {
    RedirectResult(Some(true), Some(["Error checking redirects: " + message]), [url], {web.netloc(url)}, url)
  }

  lemma UsesSuspiciousInjective(a: string, b: string)
    ensures UsesSuspicious(a) == UsesSuspicious(b) ==> a == b
  {
    if UsesSuspicious(a) == UsesSuspicious(b) {
      assert a == UsesSuspicious(a)[24..];
      assert b == UsesSuspicious(b)[24..];
    }
  }

  /** One round of the loop body: HEAD, a GET when the HEAD reply is a 3xx without a
      Location, and the next URL. */
  method Probe(current: string, web: Web) returns (step: Step)
    ensures step == StepFrom(current, web)
  {
    var reply := web.head(current);
    if reply.Raised? {
      return Fault(reply.message);
    }
    if !(300 <= reply.status < 400) {
      return Done;
    }
    var location := reply.location;
    if !Present(location) {
      var second := web.get(current);
      if second.Raised? {
        return Fault(second.message);
      }
      location := second.location;
    }
    if !Present(location) {
      return Done;
    }
    var next := if Text.StartsWith(location.value, "http://") || Text.StartsWith(location.value, "https://")
                then location.value else web.join(current, location.value);
    step := Next(web.clean(next));
  }

  /** One round of the walk, unfolded by the outcome of the probe. */
  lemma WalkStep(current: string, chain: seq<string>, left: nat, web: Web)
    requires left > 0
    ensures StepFrom(current, web).Done? ==> Walk(current, chain, left, web) == Stopped(chain + [current])
    ensures StepFrom(current, web).Fault? ==>
      Walk(current, chain, left, web) == Failed(StepFrom(current, web).message)
    ensures StepFrom(current, web).Next? ==>
      var n := StepFrom(current, web).url;
      Walk(current, chain, left, web) ==
        if n in chain + [current] then Looped(chain + [current] + [n], n)
        else Walk(n, chain + [current], left - 1, web)
  {
  }

  lemma HostsSnoc(chain: seq<string>, url: string, web: Web)
    ensures Hosts(chain + [url], web) == Hosts(chain, web) + {Host(url, web)}
  {
    assert (chain + [url])[..|chain|] == chain;
  }

  /** The `for` loop of `check_redirects`: the chain walked from `start`, with the
      hosts visited so far (up to the loop's end, or before the repeated URL). */
  method FollowChain(start: string, bound: nat, web: Web) returns (o: Outcome, domains: set<string>)
    ensures o == Walk(start, [], bound, web)
    ensures o.Stopped? ==> domains == Hosts(o.chain, web)
    ensures o.Looped? ==> domains == Hosts(o.chain[..|o.chain| - 1], web)
  {
    var chain: seq<string> := [];
    domains := {};
    var current := start;
    var i := 0;
    while i < bound
      invariant 0 <= i <= bound && |chain| == i
      invariant domains == Hosts(chain, web)
      invariant Walk(current, chain, bound - i, web) == Walk(start, [], bound, web)
    {
      WalkStep(current, chain, bound - i, web);
      HostsSnoc(chain, current, web);
      var step := Probe(current, web);
      chain := chain + [current];
      domains := domains + {Host(current, web)};
      match step
      case Fault(m) =>
        return Failed(m), domains;
      case Done =>
        return Stopped(chain), domains;
      case Next(next) =>
        if next in chain {
          assert (chain + [next])[..|chain|] == chain;
          return Looped(chain + [next], next), domains;
        }
        current := next;
        i := i + 1;
    }
    o := Stopped(chain);
  }

  /** The closing `for domain in domains` loop: one reason per visited host with a
      suspicious registered domain, in the set's iteration order, which is not modelled. */
  method SuspiciousReasons(domains: set<string>, web: Web) returns (tail: seq<string>)
    ensures Enumerates(tail, SuspiciousUses(domains, web))
  {
    tail := [];
    var remaining := domains;
    while remaining != {}
      invariant remaining <= domains
      invariant Enumerates(tail, SuspiciousUses(domains - remaining, web))
      decreases |remaining|
    {
      var d :| d in remaining;
      ghost var done := domains - remaining;
      remaining := remaining - {d};
      assert domains - remaining == done + {d};
      if web.registered(d) in SuspiciousDomains {
        UseAdded(done, d, tail, web);
        tail := tail + [UsesSuspicious(d)];
      } else {
        assert SuspiciousUses(done + {d}, web) == SuspiciousUses(done, web);
      }
    }
    assert domains - remaining == domains;
  }

  /** A new host with a suspicious registered domain adds one new reason. */
  lemma UseAdded(done: set<string>, d: string, tail: seq<string>, web: Web)
    requires Enumerates(tail, SuspiciousUses(done, web))
    requires d !in done && web.registered(d) in SuspiciousDomains
    ensures Enumerates(tail + [UsesSuspicious(d)], SuspiciousUses(done + {d}, web))
  {
    forall e | e in done && web.registered(e) in SuspiciousDomains
      ensures UsesSuspicious(e) != UsesSuspicious(d)
    {
      UsesSuspiciousInjective(e, d);
    }
    assert UsesSuspicious(d) !in SuspiciousUses(done, web);
    assert UsesSuspicious(d) !in tail;
    DistinctSnoc(tail, UsesSuspicious(d));
    assert SuspiciousUses(done + {d}, web) == SuspiciousUses(done, web) + {UsesSuspicious(d)};
    assert (set x | x in tail + [UsesSuspicious(d)]) == (set x | x in tail) + {UsesSuspicious(d)};
  }

  /** The reasons `check_redirects` states before the suspicious-domain ones. */
  method BaseReasons(chain: seq<string>, authFlow: bool, initialHost: string, finalHost: string, web: Web)
    returns (reasons: seq<string>)
    ensures reasons == TooManyReasons(chain, authFlow) + DomainChangeReasons(initialHost, finalHost, authFlow, web)
  {
    reasons := [];
    if !authFlow && |chain| > 3 {
      reasons := reasons + [TooManyReason(|chain|)];
    }
    if finalHost != initialHost && !IsWwwRedirect(initialHost, finalHost) {
      if authFlow {
        if web.registered(finalHost) in SuspiciousDomains {
          reasons := reasons + [AuthFlowReason(finalHost)];
        }
      } else {
        reasons := reasons + [DifferentDomainReason(initialHost, finalHost)];
      }
    }
  }

  /** `check_redirects(url)`. */
  method CheckRedirects(url: string, web: Web) returns (r: RedirectResult)
    ensures var o := Walk(web.clean(url), [], MaxRedirects, web);
      o.Failed? ==> r == ErrorResult(url, o.message, web)
    ensures var o := Walk(web.clean(url), [], MaxRedirects, web);
      o.Looped? ==> r == RedirectResult(Some(true), Some(["Redirect loop detected"]), o.chain,
                                        Hosts(o.chain[..|o.chain| - 1], web), o.repeated)
    ensures var o := Walk(web.clean(url), [], MaxRedirects, web);
      o.Stopped? ==>
        var authFlow := IsAuthFlow(web.clean(url), web);
        var base := TooManyReasons(o.chain, authFlow)
          + DomainChangeReasons(Host(url, web), Host(o.chain[|o.chain| - 1], web), authFlow, web);
        && r.redirectChain == o.chain
        && r.finalUrl == o.chain[|o.chain| - 1]
        && r.domainsVisited == Hosts(o.chain, web)
        && r.reasons.Some? && |base| <= |r.reasons.value| && r.reasons.value[..|base|] == base
        && Enumerates(r.reasons.value[|base|..], SuspiciousUses(r.domainsVisited, web))
        && r.isSuspicious == Some(|r.reasons.value| > 0)
    ensures Truthy(r.isSuspicious) ==> r.reasons.Some? && r.reasons.value != []
  {
    var current := web.clean(url);
    var authFlow := IsAuthFlow(current, web);
    var o, domains := FollowChain(current, MaxRedirects, web);
    match o
    case Failed(m) =>
      return ErrorResult(url, m, web);
    case Looped(chain, next) =>
      return RedirectResult(Some(true), Some(["Redirect loop detected"]), chain, domains, next);
    case Stopped(chain) =>
      var final := chain[|chain| - 1];
      var base := BaseReasons(chain, authFlow, Host(url, web), Host(final, web), web);
      var tail := SuspiciousReasons(domains, web);
      var reasons := base + tail;
      assert reasons[..|base|] == base && reasons[|base|..] == tail;
      r := RedirectResult(Some(|reasons| > 0), Some(reasons), chain, domains, final);
  }
}
