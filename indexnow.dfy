/**
 * The IndexNow client: the fixed key and host, the GET request that submits
 * one URL, the POST body that submits many, the fixed list of portfolio URLs,
 * the action filter of the tracker and the one-second rate limiter. What the
 * search engine answered is a parameter: a status code, or a thrown request.
 */
module IndexNow {
  import opened Wrappers
  import Text
  import ContactSection

  const Key: string := "51fbbea80132454ea485a9216c2bbf1f"
  const Host: string := "vihinsabandara.vercel.app"
  const KeyLocation: string := "https://" + Host + "/" + Key + ".txt"
  const ApiUrl: string := "https://api.indexnow.org/indexnow"
  const MinInterval: int := 1000

  /** What a `fetch` to the API came to: a response with a status, or an exception. */
  datatype Outcome = Status(code: int) | Threw

  // ---------------------------------------------------------------- single and bulk submission

  /** The GET request for one URL on an API endpoint: the URL and the key location percent-encoded as query values. */
  function QueryRequest(api: string, url: string, key: string, keyLocation: string): string {
    (api + "?url=") + ContactSection.EncodeURIComponent(url) + KeyParameters(key, keyLocation)
  }

  /** The query parameters after the URL: `&key=...&keyLocation=...`. */
  function KeyParameters(key: string, keyLocation: string): string {
    "&key=" + key + "&keyLocation=" + ContactSection.EncodeURIComponent(keyLocation)
  }

  function SingleRequest(url: string): string {
    QueryRequest(ApiUrl, url, Key, KeyLocation)
  }

  /** `submitUrlToIndexNow`: true for 200 and 202, false for any other status and for an exception. */
  function SubmitUrl(outcome: Outcome): (ok: bool) {
    match outcome
    case Threw => false
    case Status(code) => code == 200 || code == 202
  }

  /** The JSON body of a bulk submission. */
  datatype BulkBody = BulkBody(host: string, key: string, keyLocation: string, urlList: seq<string>)

  function BulkRequestBody(urls: seq<string>): (b: BulkBody)
    ensures b.urlList == urls
    ensures b.host == Host && b.key == Key
    ensures Text.StartsWith(b.keyLocation, "https://" + Host + "/")
  {
    var b := BulkBody(Host, Key, KeyLocation, urls);
    assert KeyLocation == ("https://" + Host + "/") + (Key + ".txt");
    b
  }

  /** `submitBulkUrlsToIndexNow`: the same two accepted statuses. */
  function SubmitBulk(urls: seq<string>, outcome: Outcome): (ok: bool) {
    outcome.Status? && (outcome.code == 200 || outcome.code == 202)
  }

  /**
   * Both submissions succeed exactly on a 200 or 202 answer (the two
   * statuses the IndexNow protocol accepts), and never on an exception; the
   * list of URLs does not matter.
   */
  lemma SubmissionSucceedsIff(urls: seq<string>, outcome: Outcome)
    ensures SubmitUrl(outcome) <==> outcome == Status(200) || outcome == Status(202)
    ensures SubmitBulk(urls, outcome) <==> SubmitUrl(outcome)
    ensures outcome == Threw ==> !SubmitUrl(outcome) && !SubmitBulk(urls, outcome)
  {
  }

  /** `a + x + b == a + y + b` only when `x == y`. */
  lemma CancelContext(a: string, x: string, y: string, b: string)
    requires a + x + b == a + y + b
    ensures x == y
  {
    assert |x| == |y|;
    assert x == (a + x + b)[|a|..|a| + |x|];
    assert y == (a + y + b)[|a|..|a| + |y|];
  }

  /** `encodeURIComponent` is one-to-one: equal encodings come from equal URLs. */
  lemma EncodingNamesUrl(u1: string, u2: string)
    requires ContactSection.EncodeURIComponent(u1) == ContactSection.EncodeURIComponent(u2)
    ensures u1 == u2
  {
    ContactSection.EncodeURIComponentRoundTrip(u1);
    ContactSection.EncodeURIComponentRoundTrip(u2);
    ContactSection.Utf8StringInjective(u1, u2);
  }

  /** Whatever the endpoint and key, the query names its URL: the encoded URL decodes back. */
  lemma QueryNamesUrl(api: string, key: string, keyLocation: string, u1: string, u2: string)
    requires QueryRequest(api, u1, key, keyLocation) == QueryRequest(api, u2, key, keyLocation)
    ensures u1 == u2
  {
    CancelContext(api + "?url=", ContactSection.EncodeURIComponent(u1), ContactSection.EncodeURIComponent(u2),
                  KeyParameters(key, keyLocation));
    EncodingNamesUrl(u1, u2);
  }

  /** Two different URLs never produce the same IndexNow request. */
  lemma SingleRequestNamesUrl(u1: string, u2: string)
    requires SingleRequest(u1) == SingleRequest(u2)
    ensures u1 == u2
  {
    QueryNamesUrl(ApiUrl, Key, KeyLocation, u1, u2);
  }

  // ---------------------------------------------------------------- portfolio URLs

  const BaseUrl: string := "https://" + Host

  /** The paths of the submitted pages: home, the project list, six project pages and the sitemap. */
  const PortfolioPaths: seq<string> := ["", "/projects", "/projects/1", "/projects/2", "/projects/3",
                                        "/projects/4", "/projects/5", "/projects/6", "/sitemap.xml"]

  function PrefixAll(base: string, paths: seq<string>): (r: seq<string>)
    ensures |r| == |paths|
    ensures forall i :: 0 <= i < |paths| ==> r[i] == base + paths[i]
  {
    if paths == [] then [] else [base + paths[0]] + PrefixAll(base, paths[1..])
  }

  /** `getPortfolioUrls`: nine distinct URLs on the site's own host, the home page first. */
  function PortfolioUrls(): (r: seq<string>)
    ensures |r| == 9 && r[0] == BaseUrl
    ensures forall i :: 0 <= i < |r| ==> Text.StartsWith(r[i], BaseUrl)
    ensures forall i, j :: 0 <= i < j < |r| ==> r[i] != r[j]
  {
    var r := PrefixAll(BaseUrl, PortfolioPaths);
    assert forall i :: 0 <= i < |r| ==> r[i][..|BaseUrl|] == BaseUrl;
    forall i, j | 0 <= i < j < |r| ensures r[i] != r[j] {
      assert r[i][|BaseUrl|..] == PortfolioPaths[i];
      assert r[j][|BaseUrl|..] == PortfolioPaths[j];
    }
    r
  }

  /** `submitAllPortfolioUrls`: the bulk body lists exactly the portfolio URLs. */
  lemma SubmitAllSendsPortfolio()
    ensures BulkRequestBody(PortfolioUrls()).urlList == PortfolioUrls()
    ensures |BulkRequestBody(PortfolioUrls()).urlList| == 9
  {
  }

  // ---------------------------------------------------------------- tracking

  const DefaultAction: string := "view"

  /** The action argument with its default applied. */
  function ActionOf(action: Option<string>): string {
    action.GetOr(DefaultAction)
  }

  /**
   * `trackAndSubmitUrl`: the request it submits, if any. Only `update` and
   * `create` submit; the default `view` and every other action do not.
   */
  function TrackAndSubmit(url: string, action: Option<string>): (sent: Option<string>)
    ensures sent.Some? <==> action == Some("update") || action == Some("create")
    ensures sent.Some? ==> sent.value == SingleRequest(url)
  {
    var a := ActionOf(action);
    if a == "update" || a == "create" then Some(SingleRequest(url)) else None
  }

  lemma DefaultActionNeverSubmits(url: string)
    ensures TrackAndSubmit(url, None) == None
    ensures TrackAndSubmit(url, Some(DefaultAction)) == None
  {
  }

  // ---------------------------------------------------------------- rate limiting

  /** Accepted submission times, each at least `MinInterval` after the previous one (and after time 0). */
  ghost predicate Spaced(times: seq<int>) {
    (times != [] ==> times[0] >= MinInterval)
    && forall i :: 0 <= i < |times| - 1 ==> times[i + 1] - times[i] >= MinInterval
  }

  /** Spacing between neighbours adds up: accepted times `k` apart are `k` intervals apart. */
  lemma {:induction false} SpacedApart(times: seq<int>, i: int, j: int)
    requires Spaced(times) && 0 <= i <= j < |times|
    ensures times[j] - times[i] >= (j - i) * MinInterval
    decreases j - i
  {
    if i < j {
      SpacedApart(times, i, j - 1);
      assert times[j] - times[j - 1] >= MinInterval;
    }
  }

  /** The module-level `lastSubmission` and the submissions it let through. */
  class RateLimiter {
    var lastSubmission: int
    ghost var accepted: seq<int>

    ghost predicate Valid()
      reads this
    {
      Spaced(accepted)
      && (accepted == [] ==> lastSubmission == 0)
      && (accepted != [] ==> lastSubmission == accepted[|accepted| - 1])
    }

    constructor ()
      ensures Valid() && lastSubmission == 0 && accepted == []
    {
      lastSubmission := 0;
      accepted := [];
    }

    /**
     * `rateLimitedSubmit`: refused, with no request, less than a second after
     * the last accepted call (or before the first second); otherwise the time
     * is recorded before the request is sent, whatever the request then
     * comes to.
     */
    method RateLimitedSubmit(url: string, now: int, outcome: Outcome) returns (ok: bool, sent: Option<string>)
      requires Valid()
      modifies this
      ensures Valid()
      ensures now - old(lastSubmission) < MinInterval ==>
        !ok && sent == None && lastSubmission == old(lastSubmission) && accepted == old(accepted)
      ensures now - old(lastSubmission) >= MinInterval ==>
        ok == SubmitUrl(outcome) && sent == Some(SingleRequest(url))
        && lastSubmission == now && accepted == old(accepted) + [now]
    {
      if now - lastSubmission < MinInterval {
        return false, None;
      }
      lastSubmission := now;
      accepted := accepted + [now];
      ok := SubmitUrl(outcome);
      sent := Some(SingleRequest(url));
    }
  }
}
