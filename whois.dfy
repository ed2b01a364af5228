/** The WHOIS age check. The WHOIS client is an oracle from the looked-up name to
    a record (or an exception); the clock is the parameter `now`. Dates are
    seconds since the epoch together with their `str()` rendering. */
module Whois {
  import opened Wrappers
  import Text

  datatype Date = Date(stamp: int, text: string)

  /** The WHOIS library gives either one date or a list of dates. */
  datatype DateField = Single(date: Date) | Several(dates: seq<Date>)

  datatype Record = Record(
    creation: Option<DateField>,
    expiration: Option<DateField>,
    registrar: Option<string>,
    org: Option<string>,
    country: Option<string>)

  datatype Lookup = Found(record: Record) | Raised(message: string)

  datatype WhoisResult = WhoisResult(
    ageDays: Option<int>,
    creationDate: Option<string>,
    isSuspicious: Option<bool>,
    registrar: Option<string>,
    expirationDate: Option<string>,
    organization: Option<string>,
    country: Option<string>,
    error: Option<string>)

  const SecondsPerDay := 86400
  /** Domains younger than this many days are suspicious. */
  const MinAgeDays := 30

  /** The name handed to the WHOIS client: every "www." removed. */
  function LookupName(domain: string): string {
    Text.ReplaceAll(domain, "www.", "")
  }

  /** Python falsiness of `w.creation_date`: None or an empty list. */
  predicate Missing(field: Option<DateField>) {
    field.None? || field == Some(Several([]))
  }

  /** The first date of a list, or the date itself; None where indexing raises. */
  function Unwrap(field: DateField): Option<Date> {
    match field
    case Single(d) => Some(d)
    case Several(ds) => if ds == [] then None else Some(ds[0])
  }

  /** `timedelta.days` of `now - created`: the floor of the difference in days. */
  function AgeDays(now: int, created: Date): int {
    (now - created.stamp) / SecondsPerDay
  }

  function FailOpen(message: string): WhoisResult {
    WhoisResult(None, None, Some(false), None, None, None, None, Some(message))
  }

  /** `check_domain` over the result of looking up `LookupName(domain)`. */
  function Decide(lookup: Lookup, now: int): (r: WhoisResult)
    ensures r.isSuspicious.Some?
    ensures Truthy(r.isSuspicious) <==> r.ageDays.Some? && r.ageDays.value < MinAgeDays
    ensures r.ageDays.None? <==> r.error.Some?
    ensures r.ageDays.None? ==> r.creationDate.None?
    ensures lookup.Raised? ==> r == FailOpen(lookup.message)
    ensures lookup.Found? && Missing(lookup.record.creation) ==>
      r == FailOpen("No creation date found")
    ensures lookup.Found? && !Missing(lookup.record.creation) &&
            (lookup.record.expiration.None? || Unwrap(lookup.record.expiration.value).Some?) ==>
      var created := Unwrap(lookup.record.creation.value).value;
      && r.ageDays == Some(AgeDays(now, created))
      && r.creationDate == Some(created.text)
      && r.registrar == lookup.record.registrar
      && r.organization == lookup.record.org
      && r.country == lookup.record.country
      && r.error.None?
      && r.expirationDate == (if lookup.record.expiration.None? then None
                              else Some(Unwrap(lookup.record.expiration.value).value.text))
    ensures lookup.Found? && !Missing(lookup.record.creation) &&
            lookup.record.expiration == Some(Several([])) ==>
      r == FailOpen("list index out of range")
  {
    match lookup
    case Raised(m) => FailOpen(m)
    case Found(w) =>
      if Missing(w.creation) then FailOpen("No creation date found")
      else
        var created := Unwrap(w.creation.value).value;
        var expiration := if w.expiration.None? then Some(None) else
          (match Unwrap(w.expiration.value)
           case None => None
           case Some(d) => Some(Some(d)));
        if expiration.None? then FailOpen("list index out of range")
        else
          var age := AgeDays(now, created);
          WhoisResult(
            Some(age), Some(created.text), Some(age < MinAgeDays), w.registrar,
            if expiration.value.None? then None else Some(expiration.value.value.text),
            w.org, w.country, None)
  }

  /** `check_domain(domain)` with the WHOIS client `whois` and clock reading `now`. */
  function CheckDomain(domain: string, now: int, whois: string -> Lookup): (r: WhoisResult)
    ensures r == Decide(whois(LookupName(domain)), now)
  {
    Decide(whois(LookupName(domain)), now)
  }

  /** The threshold in calendar terms: created less than 30 whole days before `now`
      is suspicious, created 30 days or more before is not, and a creation date in
      the future counts as young. */
  lemma {:induction false} AgeThreshold(now: int, created: Date)
    ensures AgeDays(now, created) < MinAgeDays <==> now - created.stamp < MinAgeDays * SecondsPerDay
  {
    var d := now - created.stamp;
    var q := d / SecondsPerDay;
    assert d == q * SecondsPerDay + d % SecondsPerDay;
    assert 0 <= d % SecondsPerDay < SecondsPerDay;
  }

  /** Every failure fails open: a result that records an error is never suspicious. */
  lemma FailsOpen(lookup: Lookup, now: int)
    ensures Decide(lookup, now).error.Some? ==> Decide(lookup, now).isSuspicious == Some(false)
  {
  }

  /** A leading "www." is removed before the lookup, and a domain without any "www."
      is looked up unchanged. */
  lemma LookupNameOfWww(domain: string)
    ensures LookupName("www." + domain) == LookupName(domain)
    ensures (forall i: nat :: !Text.OccursAt(domain, "www.", i)) ==> LookupName(domain) == domain
  {
    var s := "www." + domain;
    assert s[..4] == "www.";
    assert s[4..] == domain;
    if forall i: nat :: !Text.OccursAt(domain, "www.", i) {
      Text.ReplaceAllWithoutOccurrence(domain, "www.", "");
    }
  }
}
