/**
 * The company-database proxy route, app/api/crustdata/route.js: the token check, the dispatch of
 * an action to an endpoint and a payload with its defaults, the query of a person enrichment,
 * and how the upstream answer becomes the route's reply.
 */
module Crustdata {
  import opened Wrappers
  import opened Http
  import Integers

  /** The request's parameters; `None` is an absent value, and a text or number that is falsy is treated as absent where the source tests it. */
  datatype Params<J> = Params(
    field: Option<string>, query: Option<string>, limit: Option<nat>, filters: Option<J>,
    sorts: Option<seq<Sort>>, page: Option<nat>, filterType: Option<string>, cursor: Option<string>,
    linkedinProfileUrl: Option<string>, fields: Option<string>, enrichRealtime: bool)

  datatype Sort = Sort(column: string, order: string)

  /** Screen filters: the request's, or the empty array. */
  datatype ScreenFilters<J> = Given(filters: J) | NoFilters

  /** The body posted for each action. */
  datatype Payload<J> =
    | Suggest(field: Option<string>, query: Option<string>, limit: nat)
    | CompanySearch(filters: Option<J>, sorts: seq<Sort>, limit: nat, cursor: Option<string>)
    | Screen(screenFilters: ScreenFilters<J>, page: nat, limit: nat)
    | FilterSuggest(filterType: Option<string>, suggestQuery: string, limit: nat)
    | PeopleSearch(filters: Option<J>, limit: nat, cursor: Option<string>)

  /** The route's reply; `NotFound` is an HTTP 200 answer carrying `error` and `status_code: 404`. */
  datatype Reply<D> = Forward(data: D) | Failure(status: nat, error: string) | NotFound(error: string)

  /** What the route does next: answer at once, post a payload, or get an enrichment with a query. */
  datatype Step<J, D> = Respond(reply: Reply<D>) | Post(url: string, payload: Payload<J>) | Enrich(query: seq<(string, string)>)

  /** An upstream answer: its status, its text, and its parsed body. */
  datatype Answer<D> = Answer(status: nat, text: string, data: D)

  /** The upstream call: an answer, or a thrown error, `aborted` when the 60-second controller fired. */
  datatype Attempt<D> = Answered(answer: Answer<D>) | Threw(aborted: bool, message: string)

  const Base := "https://api.crustdata.com"
  const MissingToken := "CRUSTDATA_API_KEY not configured"
  const TimedOut := "Crustdata API timed out after 60s. Try fewer companies or simpler filters."
  const DefaultSorts := [Sort("employee_metrics.latest_count", "desc")]

  /** `x || fallback` for a number. */
  function NumberOr(x: Option<nat>, fallback: nat): (r: nat)
    ensures x.Some? && x.value != 0 ==> r == x.value
    ensures x.None? || x.value == 0 ==> r == fallback
  {
    if x.Some? && x.value != 0 then x.value else fallback
  }

  /** A truthy text. */
  predicate Truthy(s: Option<string>) {
    s.Some? && s.value != ""
  }

  /** The enrichment query: profile, fields and real-time flag, each only when its parameter is truthy. */
  function QueryOf<J>(params: Params<J>): seq<(string, string)> {
    (if Truthy(params.linkedinProfileUrl) then [("linkedin_profile_url", params.linkedinProfileUrl.value)] else [])
    + (if Truthy(params.fields) then [("fields", params.fields.value)] else [])
    + (if params.enrichRealtime then [("enrich_realtime", "true")] else [])
  }

  /** The `qp.set` calls of a person enrichment. */
  method EnrichQuery<J>(params: Params<J>) returns (qp: seq<(string, string)>)
    ensures qp == QueryOf(params)
  {
    qp := [];
    if Truthy(params.linkedinProfileUrl) {
      qp := qp + [("linkedin_profile_url", params.linkedinProfileUrl.value)];
    }
    if Truthy(params.fields) {
      qp := qp + [("fields", params.fields.value)];
    }
    if params.enrichRealtime {
      qp := qp + [("enrich_realtime", "true")];
    }
  }

  /** The endpoint and payload of a posting action, `None` for any other action. */
  function Endpoint<J>(action: string, params: Params<J>): Option<(string, Payload<J>)> {
    if action == "autocomplete" then
      Some((Base + "/screener/companydb/autocomplete", Suggest(params.field, params.query, NumberOr(params.limit, 10))))
    else if action == "people_autocomplete" then
      Some((Base + "/screener/persondb/autocomplete", Suggest(params.field, params.query, NumberOr(params.limit, 10))))
    else if action == "search" then
      Some((Base + "/screener/companydb/search",
            CompanySearch(params.filters, if params.sorts.Some? then params.sorts.value else DefaultSorts,
                          NumberOr(params.limit, 25), if Truthy(params.cursor) then params.cursor else None)))
    else if action == "linkedin_company_search" then
      Some((Base + "/screener/screen",
            Screen(if params.filters.Some? then Given(params.filters.value) else NoFilters,
                   NumberOr(params.page, 1), NumberOr(params.limit, 25))))
    else if action == "filters_autocomplete" then
      Some((Base + "/screener/filters/autocomplete",
            FilterSuggest(params.filterType, if Truthy(params.query) then params.query.value else "", NumberOr(params.limit, 10))))
    else if action == "people_search" then
      Some((Base + "/screener/persondb/search",
            PeopleSearch(params.filters, NumberOr(params.limit, 50), if Truthy(params.cursor) then params.cursor else None)))
    else None
  }

  /** `POST` up to the upstream call: `url` and `payload` set per action, then the cursor. */
  method Dispatch<J, D>(token: string, action: string, params: Params<J>) returns (step: Step<J, D>)
    ensures token == "" ==> step == Respond(Failure(500, MissingToken))
    ensures token != "" && action == "person_enrich" ==>
      step == Enrich(QueryOf(params)) && forall k :: 0 <= k < |step.query| ==> step.query[k].1 != ""
    ensures token != "" && action != "person_enrich" ==>
      match Endpoint(action, params)
      case Some(target) => step == Post(target.0, target.1)
      case None => step == Respond(Failure(400, "Invalid action."))
  {
    if token == "" {
      return Respond(Failure(500, MissingToken));
    }
    var url: string, payload: Payload<J>;
    if action == "autocomplete" {
      url := Base + "/screener/companydb/autocomplete";
      payload := Suggest(params.field, params.query, NumberOr(params.limit, 10));
    } else if action == "people_autocomplete" {
      url := Base + "/screener/persondb/autocomplete";
      payload := Suggest(params.field, params.query, NumberOr(params.limit, 10));
    } else if action == "search" {
      url := Base + "/screener/companydb/search";
      var sorts, limit := if params.sorts.Some? then params.sorts.value else DefaultSorts, NumberOr(params.limit, 25);
      payload := CompanySearch(params.filters, sorts, limit, None);
      if Truthy(params.cursor) {
        payload := CompanySearch(params.filters, sorts, limit, params.cursor);
      }
    } else if action == "linkedin_company_search" {
      url := Base + "/screener/screen";
      payload := Screen(if params.filters.Some? then Given(params.filters.value) else NoFilters,
                        NumberOr(params.page, 1), NumberOr(params.limit, 25));
    } else if action == "filters_autocomplete" {
      url := Base + "/screener/filters/autocomplete";
      payload := FilterSuggest(params.filterType, if Truthy(params.query) then params.query.value else "", NumberOr(params.limit, 10));
    } else if action == "people_search" {
      url := Base + "/screener/persondb/search";
      payload := PeopleSearch(params.filters, NumberOr(params.limit, 50), None);
      if Truthy(params.cursor) {
        payload := PeopleSearch(params.filters, NumberOr(params.limit, 50), params.cursor);
      }
    } else if action == "person_enrich" {
      var qp := EnrichQuery(params);
      return Enrich(qp);
    } else {
      return Respond(Failure(400, "Invalid action."));
    }
    step := Post(url, payload);
  }

  /** The reply to a posted payload. */
  function FinishPost<D>(a: Attempt<D>): (r: Reply<D>)
    ensures r.Forward? <==> a.Answered? && IsOk(a.answer.status)
    ensures a.Answered? && !IsOk(a.answer.status) ==> r.Failure? && r.status == a.answer.status
    ensures a.Threw? ==> r == Failure(if a.aborted then 504 else 500, if a.aborted then TimedOut else a.message)
  {
    match a
    case Answered(r) =>
      if IsOk(r.status) then Forward(r.data)
      else Failure(r.status, "Crustdata API error: " + Integers.Decimal(r.status) + " " + r.text)
    case Threw(aborted, message) => if aborted then Failure(504, TimedOut) else Failure(500, message)
  }

  /** The reply to an enrichment, which has no timeout of its own: a 404 is answered as a 200 carrying the error. */
  function FinishEnrich<D>(a: Attempt<D>): (r: Reply<D>)
    ensures r.NotFound? <==> a.Answered? && a.answer.status == 404
    ensures r.NotFound? ==> r.error == "Profile not found. " + a.answer.text
    ensures r.Forward? <==> a.Answered? && IsOk(a.answer.status)
    ensures a.Threw? ==> r == Failure(500, a.message)
  {
    match a
    case Answered(r) =>
      if r.status == 404 then NotFound("Profile not found. " + r.text)
      else if !IsOk(r.status) then Failure(r.status, "Crustdata API error: " + Integers.Decimal(r.status) + " " + r.text)
      else Forward(r.data)
    case Threw(_, message) => Failure(500, message)
  }

  /** The whole route, with the answers the upstream gives to a posted payload and to an enrichment query. */
  method Handle<J, D>(token: string, action: string, params: Params<J>,
                      posted: Payload<J> -> Attempt<D>, enriched: seq<(string, string)> -> Attempt<D>)
    returns (reply: Reply<D>)
    ensures token == "" ==> reply == Failure(500, MissingToken)
    ensures token != "" && action == "person_enrich" ==> reply == FinishEnrich(enriched(QueryOf(params)))
    ensures token != "" && action != "person_enrich" ==>
      match Endpoint(action, params)
      case Some(target) => reply == FinishPost(posted(target.1))
      case None => reply == Failure(400, "Invalid action.")
  {
    var step: Step<J, D> := Dispatch(token, action, params);
    match step {
      case Respond(r) => reply := r;
      case Post(_, payload) => reply := FinishPost(posted(payload));
      case Enrich(query) => reply := FinishEnrich(enriched(query));
    }
  }

  /** The HTTP status the route answers with. */
  function HttpStatus<D>(r: Reply<D>): nat {
    match r
    case Forward(_) => 200
    case Failure(status, _) => status
    case NotFound(_) => 200
  }

  // ------------------------------------------------------------ properties

  /** The defaults of every posting action, and its endpoint. */
  lemma Defaults<J>(action: string, params: Params<J>)
    requires params.limit.None? && params.page.None? && params.sorts.None? && params.query.None? && params.filters.None?
    ensures action == "autocomplete" || action == "people_autocomplete" ==>
      Endpoint(action, params).Some? && Endpoint(action, params).value.1.limit == 10
    ensures action == "search" ==>
      Endpoint(action, params).Some? && Endpoint(action, params).value.1.limit == 25
      && Endpoint(action, params).value.1.sorts == DefaultSorts
    ensures action == "linkedin_company_search" ==>
      Endpoint(action, params) == Some((Base + "/screener/screen", Screen(NoFilters, 1, 25)))
    ensures action == "filters_autocomplete" ==>
      Endpoint(action, params) == Some((Base + "/screener/filters/autocomplete", FilterSuggest(params.filterType, "", 10)))
    ensures action == "people_search" ==>
      Endpoint(action, params).Some? && Endpoint(action, params).value.1.limit == 50
  {
  }

  /** The searches carry a cursor exactly when a truthy one was given. */
  lemma CursorOnlyWhenGiven<J>(action: string, params: Params<J>)
    requires action == "search" || action == "people_search"
    ensures Endpoint(action, params).Some?
    ensures Endpoint(action, params).value.1.cursor.Some? <==> Truthy(params.cursor)
    ensures Truthy(params.cursor) ==> Endpoint(action, params).value.1.cursor == params.cursor
  {
  }

  /** A key enters the enrichment query iff its parameter is truthy, and each key at most once. */
  lemma EnrichKeys<J>(params: Params<J>)
    ensures var qp := QueryOf(params);
      (exists k :: 0 <= k < |qp| && qp[k].0 == "linkedin_profile_url") <==> Truthy(params.linkedinProfileUrl)
    ensures var qp := QueryOf(params); (exists k :: 0 <= k < |qp| && qp[k].0 == "fields") <==> Truthy(params.fields)
    ensures var qp := QueryOf(params);
      (exists k :: 0 <= k < |qp| && qp[k] == ("enrich_realtime", "true")) <==> params.enrichRealtime
    ensures var qp := QueryOf(params); forall i, j :: 0 <= i < j < |qp| ==> qp[i].0 != qp[j].0
  {
    var qp := QueryOf(params);
    if Truthy(params.linkedinProfileUrl) {
      assert qp[0].0 == "linkedin_profile_url";
    }
    if Truthy(params.fields) {
      var k := if Truthy(params.linkedinProfileUrl) then 1 else 0;
      assert qp[k].0 == "fields";
    }
    if params.enrichRealtime {
      assert qp[|qp| - 1] == ("enrich_realtime", "true");
    }
  }

  /** An unknown enrichment is a 200 answer, never an error status; other refusals keep the upstream status. */
  lemma EnrichNotFoundIsOk<D>(a: Attempt<D>)
    requires a.Answered?
    ensures a.answer.status == 404 ==> HttpStatus(FinishEnrich(a)) == 200 && FinishEnrich(a).NotFound?
    ensures a.answer.status != 404 && !IsOk(a.answer.status) ==> HttpStatus(FinishEnrich(a)) == a.answer.status
  {
  }

  /** Only a posted payload can time out with 504; an enrichment that throws answers 500. */
  lemma OnlyPostsTimeOut<D>(a: Attempt<D>)
    requires a.Threw?
    ensures HttpStatus(FinishPost(a)) == (if a.aborted then 504 else 500)
    ensures HttpStatus(FinishEnrich(a)) == 500
  {
  }
}
