/** The PhishTank blocklist lookup: request parameters and the mapping of the
    service's answer to a result record. The HTTP POST is an oracle from the
    request parameters to the reply. */
module PhishTank {
  import opened Wrappers
  import Text

  /** The inner `results` object of a PhishTank answer; a key the answer lacks is None. */
  datatype Listing = Listing(
    inDatabase: Option<bool>,
    valid: Option<bool>,
    phishId: Option<int>,
    detailPage: Option<string>,
    verified: Option<bool>,
    verifiedAt: Option<string>)

  /** The decoded body of a 200 answer: `results` may be missing; the body may not be JSON. */
  datatype Body = Json(results: Option<Listing>) | NotJson(message: string)

  /** What the POST produced: a status and a body, or an exception with its text. */
  datatype Reply = Reply(status: int, body: Body) | Raised(message: string)

  /** The dictionary `check_url` returns; `error` and `phishtank` are absent on some paths. */
  datatype PhishTankResult = PhishTankResult(
    isPhishing: Option<bool>,
    phishtank: Option<Listing>,
    error: Option<string>)

  const Endpoint := "https://checkurl.phishtank.com/checkurl/"

  /** The form parameters of the request; `app_key` only with a non-empty key. */
  function Params(url: string, apiKey: string): (p: map<string, string>)
    ensures "url" in p && p["url"] == url
    ensures "format" in p && p["format"] == "json"
    ensures "app_key" in p <==> apiKey != ""
    ensures "app_key" in p ==> p["app_key"] == apiKey
    ensures p.Keys <= {"url", "format", "app_key"}
  {
    var base := map["url" := url, "format" := "json"];
    if apiKey != "" then base["app_key" := apiKey] else base
  }

  /** A 200 answer whose listing is in the database and valid. */
  predicate Confirmed(reply: Reply) {
    && reply.Reply? && reply.status == 200
    && reply.body.Json? && reply.body.results.Some?
    && reply.body.results.value.inDatabase == Some(true) && reply.body.results.value.valid == Some(true)
  }

  function Failure(message: string): PhishTankResult {
    PhishTankResult(Some(false), None, Some("Could not check PhishTank: " + message))
  }

  /** `check_url`. Every failure is fail-open: `isPhishing` is false and `error` says why.
      `data["results"]["in_database"] and data["results"]["valid"]` reads `valid` only
      when `in_database` holds, so a listed entry without `valid` raises KeyError, and an
      answer without `in_database` always does. */
  function CheckUrl(url: string, apiKey: string, post: map<string, string> -> Reply): (r: PhishTankResult)
    ensures r.isPhishing.Some?
    ensures Truthy(r.isPhishing) <==> Confirmed(post(Params(url, apiKey)))
    ensures r.phishtank.Some? <==> r.error.None?
    ensures r.phishtank.Some? ==>
      post(Params(url, apiKey)) == Reply(200, Json(r.phishtank))
    ensures post(Params(url, apiKey)).Reply? && post(Params(url, apiKey)).status != 200 ==>
      r == PhishTankResult(Some(false), None,
        Some("PhishTank responded with status " + Text.IntToString(post(Params(url, apiKey)).status)))
    ensures post(Params(url, apiKey)).Raised? ==>
      r == Failure(post(Params(url, apiKey)).message)
    ensures var reply := post(Params(url, apiKey));
      (reply.Reply? && reply.status == 200 && reply.body.Json? && reply.body.results.Some?) ==>
        && (reply.body.results.value.inDatabase.None? ==> r == Failure("'in_database'"))
        && (reply.body.results.value.inDatabase == Some(false) ==>
              r == PhishTankResult(Some(false), reply.body.results, None))
        && (reply.body.results.value.inDatabase == Some(true) && reply.body.results.value.valid.None? ==>
              r == Failure("'valid'"))
        && (reply.body.results.value.inDatabase == Some(true) && reply.body.results.value.valid.Some? ==>
              r == PhishTankResult(reply.body.results.value.valid, reply.body.results, None))
    ensures var reply := post(Params(url, apiKey));
      (reply.Reply? && reply.status == 200) ==>
        && (reply.body == Json(None) ==> r == Failure("'results'"))
        && (reply.body.NotJson? ==> r == Failure(reply.body.message))
  {
    match post(Params(url, apiKey))
    case Raised(m) => Failure(m)
    case Reply(status, body) =>
      if status != 200 then
        PhishTankResult(Some(false), None, Some("PhishTank responded with status " + Text.IntToString(status)))
      else
        match body
        case NotJson(m) => Failure(m)
        case Json(None) => Failure("'results'")
        case Json(Some(listing)) =>
          if listing.inDatabase.None? then Failure("'in_database'")
          else if !listing.inDatabase.value then PhishTankResult(Some(false), Some(listing), None)
          else if listing.valid.None? then Failure("'valid'")
          else PhishTankResult(Some(listing.valid.value), Some(listing), None)
  }
}
