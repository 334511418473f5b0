/**
 * The outreach-platform proxy route, app/api/instantly/route.js: the token check, the action
 * dispatch, validation of a lead batch, the forwarded payload, and how an upstream answer becomes
 * the route's reply. The route is a decision, `Plan`, followed by at most one upstream call, `Finish`.
 */
module Instantly {
  import opened Wrappers
  import Integers
  import opened Http

  /** The request: `action`, `campaign_id` ("" when absent or empty) and `leads` (`None` when absent). */
  datatype Request<L> = Request(action: string, campaignId: string, leads: Option<seq<L>>)

  /** The body posted to `/leads/add`. */
  datatype Payload<L> = Payload(campaignId: string, leads: seq<L>, skipIfInWorkspace: bool, verifyLeadsOnImport: bool)

  /** The route's reply: the upstream body unchanged, or an error with a status. */
  datatype Reply<D> = Forward(data: D) | Failure(status: nat, error: string)

  /** What the route does next: answer at once, add leads, or list the campaigns. */
  datatype Step<L, D> = Respond(reply: Reply<D>) | AddLeads(payload: Payload<L>) | ListCampaigns

  /** An upstream answer: its status, its body's `message` and `error` ("" when absent or falsy), the body. */
  datatype Answer<D> = Answer(status: nat, message: string, error: string, data: D)

  /** The upstream call: an answer, or a thrown error. */
  datatype Attempt<D> = Answered(answer: Answer<D>) | Threw(reason: string)

  const MaxLeads: nat := 1000
  const MissingToken := "INSTANTLY_API_KEY not configured. Add it to your .env.local file."

  /** The guard clauses of `add_leads`, in order, and the payload they let through. */
  function CheckLeads<L, D>(campaignId: string, leads: Option<seq<L>>): (s: Step<L, D>)
    ensures s.AddLeads? <==> campaignId != "" && leads.Some? && 1 <= |leads.value| <= MaxLeads
    ensures s.AddLeads? ==> s.payload == Payload(campaignId, leads.value, true, false)
    ensures !s.AddLeads? ==> s.Respond? && s.reply.Failure? && s.reply.status == 400
  {
    if campaignId == "" then Respond(Failure(400, "campaign_id is required"))
    else if leads.None? || |leads.value| == 0 then Respond(Failure(400, "No leads provided"))
    else if |leads.value| > MaxLeads then Respond(Failure(400, "Maximum 1000 leads per request"))
    else AddLeads(Payload(campaignId, leads.value, true, false))
  }

  /** `POST` up to the upstream call: the token is checked before the action is looked at. */
  function Plan<L, D>(token: string, req: Request<L>): (s: Step<L, D>)
    ensures token == "" ==> s == Respond(Failure(500, MissingToken))
    ensures token != "" && req.action == "list_campaigns" ==> s == ListCampaigns
    ensures token != "" && req.action != "add_leads" && req.action != "list_campaigns" ==>
      s == Respond(Failure(400, "Unknown action: " + req.action))
  {
    if token == "" then Respond(Failure(500, MissingToken))
    else if req.action == "add_leads" then CheckLeads(req.campaignId, req.leads)
    else if req.action == "list_campaigns" then ListCampaigns
    else Respond(Failure(400, "Unknown action: " + req.action))
  }

  /** `data.message || data.error || `Instantly API error: <status>``. */
  function ErrorMessage(status: nat, message: string, error: string): (r: string)
    ensures message != "" ==> r == message
    ensures message == "" && error != "" ==> r == error
    ensures message == "" && error == "" ==> r == "Instantly API error: " + Integers.Decimal(status)
    ensures r != ""
  {
    if message != "" then message else if error != "" then error else "Instantly API error: " + Integers.Decimal(status)
  }

  /** The reply to an upstream call, the same for both actions. */
  function Finish<D>(a: Attempt<D>): (r: Reply<D>)
    ensures r.Forward? <==> a.Answered? && IsOk(a.answer.status)
    ensures r.Forward? ==> r.data == a.answer.data
    ensures r.Failure? && a.Answered? ==> r.status == a.answer.status && r.error != ""
    ensures a.Threw? ==> r == Failure(500, a.reason)
  {
    match a
    case Answered(r) =>
      if IsOk(r.status) then Forward(r.data)
      else Failure(r.status, ErrorMessage(r.status, r.message, r.error))
    case Threw(reason) => Failure(500, reason)
  }

  /** The whole route, with the answers of the upstream calls it may make. */
  function Handle<L, D>(token: string, req: Request<L>, added: Payload<L> -> Attempt<D>, listed: Attempt<D>): Reply<D> {
    match Plan(token, req)
    case Respond(reply) => reply
    case AddLeads(payload) => Finish(added(payload))
    case ListCampaigns => Finish(listed)
  }

  /** Exactly the batches of 1 to 1000 leads with a campaign reach the upstream, unchanged and flagged. */
  lemma AcceptedBatches<L, D>(token: string, req: Request<L>)
    requires token != "" && req.action == "add_leads"
    ensures (Plan<L, D>(token, req)).AddLeads? <==>
      req.campaignId != "" && req.leads.Some? && 1 <= |req.leads.value| <= MaxLeads
    ensures (Plan<L, D>(token, req)).AddLeads? ==>
      var p := (Plan<L, D>(token, req)).payload;
      p.campaignId == req.campaignId && p.leads == req.leads.value && p.skipIfInWorkspace && !p.verifyLeadsOnImport
  {
  }

  /** The campaign is checked before the leads: a request lacking both is refused for its campaign. */
  lemma CampaignCheckedFirst<L, D>(token: string, req: Request<L>)
    requires token != "" && req.action == "add_leads" && req.campaignId == ""
    ensures Plan<L, D>(token, req) == Respond(Failure(400, "campaign_id is required"))
  {
  }

  /** Without a token no upstream call is made, whatever the request. */
  lemma NoTokenNoCall<L, D>(req: Request<L>, added: Payload<L> -> Attempt<D>, listed: Attempt<D>)
    ensures Handle("", req, added, listed) == Failure(500, MissingToken)
  {
  }

  /** A refused upstream call keeps the upstream's status in the route's reply. */
  lemma FailureKeepsStatus<L, D>(token: string, req: Request<L>, added: Payload<L> -> Attempt<D>, listed: Attempt<D>)
    requires Plan<L, D>(token, req).ListCampaigns? && listed.Answered? && !(IsOk(listed.answer.status))
    ensures Handle(token, req, added, listed).Failure? && Handle(token, req, added, listed).status == listed.answer.status
  {
  }
}
