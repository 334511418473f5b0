/**
 * The two Exa proxy routes, app/api/exa/route.js (search) and app/api/exa-contents/route.js
 * (page contents): request validation, the upstream request body, and the attempt loop that
 * retries rate limits, server errors and timeouts with exponential waits. The upstream is a
 * function from the attempt number to what that attempt produced; waits are recorded, not slept.
 */
module Exa {
  import opened Wrappers
  import opened Http
  import Integers

  /** An upstream answer: its status, the `error` field of its JSON body ("" when absent or falsy), the body. */
  datatype Answer<D> = Answer(status: nat, error: string, data: D)

  /** One attempt: an answer, or a thrown error, `timedOut` when its name is `TimeoutError`. */
  datatype Attempt<D> = Answered(answer: Answer<D>) | Threw(timedOut: bool, message: string)

  /** What a route returns: the upstream body unchanged, or an error with a status. */
  datatype Reply<D> = Forward(data: D) | Failure(status: nat, error: string)

  // ------------------------------------------------------------ the attempt loop

  /** A rate limit or server error that is not OK, or a timeout, is retried. */
  predicate Retryable<D>(a: Attempt<D>) {
    match a
    case Answered(r) => !IsOk(r.status) && (r.status == 429 || r.status >= 500)
    case Threw(timedOut, _) => timedOut
  }

  /** `lastError` after an attempt. */
  function ErrorOf<D>(a: Attempt<D>): string {
    match a
    case Answered(r) => if r.error != "" then r.error else "HTTP " + Integers.Decimal(r.status)
    case Threw(_, message) => message
  }

  /** How many of the attempts, from the first, are retried. */
  function Retried<D>(upstream: nat -> Attempt<D>): (n: nat)
    ensures n <= MaxAttempts
    ensures forall k :: 0 <= k < n ==> Retryable(upstream(k))
    ensures n < MaxAttempts ==> !Retryable(upstream(n))
  {
    if !Retryable(upstream(0)) then 0
    else if !Retryable(upstream(1)) then 1
    else if !Retryable(upstream(2)) then 2
    else 3
  }

  /** How an attempt that is not retried ends the route; `refusal` prefixes the status of a refused request. */
  function Settle<D>(a: Attempt<D>, refusal: string): Reply<D> {
    match a
    case Answered(r) =>
      if IsOk(r.status) then Forward(r.data)
      else Failure(r.status, if r.error != "" then r.error else refusal + Integers.Decimal(r.status))
    case Threw(_, message) => Failure(500, message)
  }

  /** The first attempt not retried settles the route; three retried attempts exhaust it. */
  function Outcome<D>(upstream: nat -> Attempt<D>, refusal: string, exhausted: string): Reply<D> {
    var n := Retried(upstream);
    if n < MaxAttempts then Settle(upstream(n), refusal)
    else Failure(429, exhausted + ErrorOf(upstream(MaxAttempts - 1)))
  }

  /** The `for (attempt …)` loop of both routes, with the waits it would sleep. */
  method Retry<D>(upstream: nat -> Attempt<D>, refusal: string, exhausted: string) returns (reply: Reply<D>, waits: seq<nat>)
    ensures reply == Outcome(upstream, refusal, exhausted)
    ensures waits == Waits(2000, Retried(upstream))
  {
    var lastError := "null";
    waits := [];
    var attempt := 0;
    while attempt < MaxAttempts
      invariant 0 <= attempt <= MaxAttempts
      invariant forall k :: 0 <= k < attempt ==> Retryable(upstream(k))
      invariant waits == Waits(2000, attempt)
      invariant attempt > 0 ==> lastError == ErrorOf(upstream(attempt - 1))
    {
      match upstream(attempt) {
        case Answered(r) =>
          if !IsOk(r.status) {
            if r.status == 429 || r.status >= 500 {
              lastError := if r.error != "" then r.error else "HTTP " + Integers.Decimal(r.status);
              waits := waits + [Backoff(2000, attempt)];
              attempt := attempt + 1;
              continue;
            }
            reply := Failure(r.status, if r.error != "" then r.error else refusal + Integers.Decimal(r.status));
            return;
          }
          reply := Forward(r.data);
          return;
        case Threw(timedOut, message) =>
          lastError := message;
          if timedOut {
            waits := waits + [Backoff(2000, attempt)];
            attempt := attempt + 1;
            continue;
          }
          // rethrown, and caught by the handler's outer `catch`
          reply := Failure(500, message);
          return;
      }
    }
    reply := Failure(429, exhausted + lastError);
  }

  /** The route exhausts its attempts, and answers 429, exactly when all three attempts are retried. */
  lemma ExhaustedIff<D>(upstream: nat -> Attempt<D>, refusal: string, exhausted: string)
    ensures (Outcome(upstream, refusal, exhausted).Failure? && Outcome(upstream, refusal, exhausted).status == 429)
      <==> Retried(upstream) == MaxAttempts
    ensures Retried(upstream) == MaxAttempts ==>
      Outcome(upstream, refusal, exhausted) == Failure(429, exhausted + ErrorOf(upstream(2)))
  {
    var n := Retried(upstream);
    if n < MaxAttempts {
      assert !Retryable(upstream(n));
    }
  }

  /** The first OK answer is forwarded unchanged, after retried attempts only. */
  lemma ForwardsFirstOk<D>(upstream: nat -> Attempt<D>, refusal: string, exhausted: string, n: nat)
    requires n < MaxAttempts && upstream(n).Answered? && IsOk(upstream(n).answer.status)
    requires forall k :: 0 <= k < n ==> Retryable(upstream(k))
    ensures Outcome(upstream, refusal, exhausted) == Forward(upstream(n).answer.data)
  {
  }

  /** A refused request that is not retried ends the route with the upstream's own status. */
  lemma RefusalPassesStatus<D>(upstream: nat -> Attempt<D>, refusal: string, exhausted: string)
    requires Retried(upstream) < MaxAttempts
    requires upstream(Retried(upstream)).Answered? && !IsOk(upstream(Retried(upstream)).answer.status)
    ensures var r := upstream(Retried(upstream)).answer;
      r.status != 429 && r.status < 500
      && Outcome(upstream, refusal, exhausted) == Failure(r.status, if r.error != "" then r.error else refusal + Integers.Decimal(r.status))
  {
  }

  // ------------------------------------------------------------ search (app/api/exa/route.js)

  /** The search request; "" stands for an absent or empty text field and 0 for an absent count. */
  datatype SearchRequest<C> = SearchRequest(
    query: string, category: string, numResults: nat, contents: Option<C>,
    startPublishedDate: string, endPublishedDate: string,
    includeDomains: Option<seq<string>>, excludeDomains: Option<seq<string>>)

  datatype SearchBody<C> = SearchBody(
    query: string, searchType: string, numResults: nat, category: Option<string>,
    startPublishedDate: Option<string>, endPublishedDate: Option<string>,
    includeDomains: Option<seq<string>>, excludeDomains: Option<seq<string>>, contents: Option<C>)

  /** A text field is copied only when it is truthy. */
  function IfGiven(s: string): (r: Option<string>)
    ensures r.Some? <==> s != ""
    ensures r.Some? ==> r.value == s
  {
    if s != "" then Some(s) else None
  }

  /** The body that is posted to the search endpoint. */
  method BuildSearchBody<C>(req: SearchRequest<C>) returns (body: SearchBody<C>)
    ensures body == SearchBody(req.query, "auto", if req.numResults != 0 then req.numResults else 10,
                               IfGiven(req.category), IfGiven(req.startPublishedDate), IfGiven(req.endPublishedDate),
                               req.includeDomains, req.excludeDomains, req.contents)
  {
    body := SearchBody(req.query, "auto", if req.numResults != 0 then req.numResults else 10, None, None, None, None, None, None);
    if req.category != "" { body := body.(category := Some(req.category)); }
    if req.startPublishedDate != "" { body := body.(startPublishedDate := Some(req.startPublishedDate)); }
    if req.endPublishedDate != "" { body := body.(endPublishedDate := Some(req.endPublishedDate)); }
    if req.includeDomains.Some? { body := body.(includeDomains := req.includeDomains); }
    if req.excludeDomains.Some? { body := body.(excludeDomains := req.excludeDomains); }
    if req.contents.Some? { body := body.(contents := req.contents); }
  }

  const SearchRefusal := "Exa API error: "
  const SearchExhausted := "Exa search failed after 3 retries. Last error: "

  /**
   * `POST` of the search route: the key, then the query, are checked before any attempt; `sent`
   * is the body the attempts post.
   */
  method Search<C, D>(exaKey: string, req: SearchRequest<C>, upstream: nat -> Attempt<D>)
    returns (sent: Option<SearchBody<C>>, reply: Reply<D>, waits: seq<nat>)
    ensures exaKey == "" ==> sent == None && reply == Failure(400, "EXA_API_KEY not set in environment variables.") && waits == []
    ensures exaKey != "" && req.query == "" ==> sent == None && reply == Failure(400, "Query is required.") && waits == []
    ensures exaKey != "" && req.query != "" ==>
      sent.Some? && sent.value.query == req.query
      && reply == Outcome(upstream, SearchRefusal, SearchExhausted) && waits == Waits(2000, Retried(upstream))
  {
    if exaKey == "" {
      return None, Failure(400, "EXA_API_KEY not set in environment variables."), [];
    }
    if req.query == "" {
      return None, Failure(400, "Query is required."), [];
    }
    var body := BuildSearchBody(req);
    sent := Some(body);
    reply, waits := Retry(upstream, SearchRefusal, SearchExhausted);
  }

  // ------------------------------------------------------------ contents (app/api/exa-contents/route.js)

  /** The `urls` field: absent, something other than an array, or an array. */
  datatype UrlsField = NoUrls | NotArray | Urls(urls: seq<string>)

  /** The contents request; each option is any JSON value, `None` when it is `undefined`. */
  datatype ContentsRequest<J> = ContentsRequest(
    urls: UrlsField, text: Option<J>, highlights: Option<J>, summary: Option<J>, subpages: Option<J>,
    subpageTarget: Option<J>, maxAgeHours: Option<J>, livecrawlTimeout: Option<J>)

  datatype ContentsBody<J> = ContentsBody(
    ids: seq<string>, text: Option<J>, highlights: Option<J>, summary: Option<J>, subpages: Option<J>,
    subpageTarget: Option<J>, maxAgeHours: Option<J>, livecrawlTimeout: Option<J>)

  /** `!urls || !Array.isArray(urls) || urls.length === 0`. */
  predicate UrlsMissing(u: UrlsField) {
    !u.Urls? || |u.urls| == 0
  }

  /**
   * The body posted to the contents endpoint: the urls as `ids`, and every option that is not
   * `undefined`, falsy ones such as `0` or `false` included.
   */
  method BuildContentsBody<J>(req: ContentsRequest<J>) returns (body: ContentsBody<J>)
    requires req.urls.Urls?
    ensures body == ContentsBody(req.urls.urls, req.text, req.highlights, req.summary, req.subpages,
                                 req.subpageTarget, req.maxAgeHours, req.livecrawlTimeout)
  {
    body := ContentsBody(req.urls.urls, None, None, None, None, None, None, None);
    if req.text.Some? { body := body.(text := req.text); }
    if req.highlights.Some? { body := body.(highlights := req.highlights); }
    if req.summary.Some? { body := body.(summary := req.summary); }
    if req.subpages.Some? { body := body.(subpages := req.subpages); }
    if req.subpageTarget.Some? { body := body.(subpageTarget := req.subpageTarget); }
    if req.maxAgeHours.Some? { body := body.(maxAgeHours := req.maxAgeHours); }
    if req.livecrawlTimeout.Some? { body := body.(livecrawlTimeout := req.livecrawlTimeout); }
  }

  const ContentsRefusal := "Exa contents error: "
  const ContentsExhausted := "Exa contents failed after 3 retries. Last error: "

  /** `POST` of the contents route: the key, then the urls, are checked before any attempt. */
  method Contents<J, D>(exaKey: string, req: ContentsRequest<J>, upstream: nat -> Attempt<D>)
    returns (sent: Option<ContentsBody<J>>, reply: Reply<D>, waits: seq<nat>)
    ensures exaKey == "" ==> sent == None && reply == Failure(400, "EXA_API_KEY not set in environment variables.") && waits == []
    ensures exaKey != "" && UrlsMissing(req.urls) ==> sent == None && reply == Failure(400, "urls array is required.") && waits == []
    ensures exaKey != "" && !UrlsMissing(req.urls) ==>
      sent.Some? && sent.value.ids == req.urls.urls
      && reply == Outcome(upstream, ContentsRefusal, ContentsExhausted) && waits == Waits(2000, Retried(upstream))
  {
    if exaKey == "" {
      return None, Failure(400, "EXA_API_KEY not set in environment variables."), [];
    }
    if UrlsMissing(req.urls) {
      return None, Failure(400, "urls array is required."), [];
    }
    var body := BuildContentsBody(req);
    sent := Some(body);
    reply, waits := Retry(upstream, ContentsRefusal, ContentsExhausted);
  }
}
