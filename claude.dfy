/**
 * The model proxy route, app/api/claude/route.js: key resolution, the message request body, and an
 * attempt loop that decides from the JSON body, not the status, whether to wait and retry.
 */
module Claude {
  import opened Wrappers
  import opened Text
  import opened Http

  /** The route's request; "" stands for an absent or empty text field, 0 for an absent count. */
  datatype Request = Request(prompt: string, useWebSearch: bool, model: string, apiKey: string,
                             maxTokens: nat, systemPrompt: string)

  datatype Message = Message(role: string, content: string)
  datatype Tool = Tool(toolType: string, name: string)

  datatype Body = Body(model: string, maxTokens: nat, messages: seq<Message>,
                       system: Option<string>, tools: Option<seq<Tool>>)

  /** The `error` field of the upstream body: absent or falsy, a string, or an object with an optional message. */
  datatype ErrorField = NoError | ErrorText(text: string) | ErrorObject(message: Option<string>)

  /** The parsed upstream body: its `error` field and the whole body. */
  datatype Answer<D> = Answer(error: ErrorField, data: D)

  /** One attempt: a parsed body, or a thrown fetch or parse error. */
  datatype Attempt<D> = Parsed(answer: Answer<D>) | Threw(message: string)

  /** The route's reply; a refusal's `error` is `None` where the source sends `undefined`. */
  datatype Reply<D> = Deliver(data: D) | Refuse(status: nat, error: Option<string>)

  const DefaultModel := "claude-sonnet-4-20250514"
  const DefaultMaxTokens: nat := 16000
  const MissingKey := "API key required. Set ANTHROPIC_API_KEY env var or provide in settings."
  const Exhausted := "Rate limit exceeded after 3 retries. Last error: "

  /** `apiKey || process.env.ANTHROPIC_API_KEY`: the request's key wins; neither gives `None`. */
  function ResolveKey(apiKey: string, envKey: string): (r: Option<string>)
    ensures apiKey != "" ==> r == Some(apiKey)
    ensures apiKey == "" && envKey != "" ==> r == Some(envKey)
    ensures r.None? <==> apiKey == "" && envKey == ""
  {
    if apiKey != "" then Some(apiKey) else if envKey != "" then Some(envKey) else None
  }

  /** The request body: defaults for model and token limit, one user message, `system` and `tools` only when asked. */
  method BuildBody(req: Request) returns (body: Body)
    ensures body.model == (if req.model != "" then req.model else DefaultModel)
    ensures body.maxTokens == (if req.maxTokens != 0 then req.maxTokens else DefaultMaxTokens)
    ensures body.messages == [Message("user", req.prompt)]
    ensures body.system == (if req.systemPrompt != "" then Some(req.systemPrompt) else None)
    ensures body.tools == (if req.useWebSearch then Some([Tool("web_search_20250305", "web_search")]) else None)
  {
    body := Body(if req.model != "" then req.model else DefaultModel,
                 if req.maxTokens != 0 then req.maxTokens else DefaultMaxTokens,
                 [Message("user", req.prompt)], None, None);
    if req.systemPrompt != "" {
      body := body.(system := Some(req.systemPrompt));
    }
    if req.useWebSearch {
      body := body.(tools := Some([Tool("web_search_20250305", "web_search")]));
    }
  }

  // ------------------------------------------------------------ classifying the body

  /** An error object whose message mentions a rate limit or an overload. */
  predicate RateLimited(e: ErrorField) {
    e.ErrorObject? && e.message.Some? && e.message.value != ""
    && (Contains(e.message.value, "rate limit") || Contains(e.message.value, "verloaded"))
  }

  /** The error string `Overloaded`. */
  predicate Overloaded(e: ErrorField) {
    e == ErrorText("Overloaded")
  }

  /** A truthy `error` field. */
  predicate HasError(e: ErrorField) {
    e.ErrorObject? || (e.ErrorText? && e.text != "")
  }

  predicate Retryable<D>(a: Attempt<D>) {
    a.Parsed? && (RateLimited(a.answer.error) || Overloaded(a.answer.error))
  }

  /** `lastError` after a retried attempt. */
  function ErrorOf<D>(a: Attempt<D>): string {
    if a.Parsed? && RateLimited(a.answer.error) then a.answer.error.message.value else "Overloaded"
  }

  function Retried<D>(upstream: nat -> Attempt<D>): (n: nat)
    ensures n <= MaxAttempts
    ensures forall k :: 0 <= k < n ==> Retryable(upstream(k))
    ensures n < MaxAttempts ==> !Retryable(upstream(n))
  {
    if !Retryable(upstream(0)) then 0
    else if !Retryable(upstream(1)) then 1
    else if !Retryable(upstream(2)) then 2
    else 3
  }

  /** The message of an error that is not retried: an object's `message`, `undefined` for a string. */
  function MessageOf(e: ErrorField): Option<string> {
    if e.ErrorObject? then e.message else None
  }

  /** How an attempt that is not retried ends the route. */
  function Settle<D>(a: Attempt<D>): Reply<D> {
    match a
    case Parsed(r) => if HasError(r.error) then Refuse(400, MessageOf(r.error)) else Deliver(r.data)
    case Threw(message) => Refuse(500, Some(message))
  }

  function Outcome<D>(upstream: nat -> Attempt<D>): Reply<D> {
    var n := Retried(upstream);
    if n < MaxAttempts then Settle(upstream(n))
    else Refuse(429, Some(Exhausted + ErrorOf(upstream(MaxAttempts - 1))))
  }

  /** The attempt loop, with the waits it would sleep. */
  method Retry<D>(upstream: nat -> Attempt<D>) returns (reply: Reply<D>, waits: seq<nat>)
    ensures reply == Outcome(upstream)
    ensures waits == Waits(30000, Retried(upstream))
  {
    var lastError := "null";
    waits := [];
    var attempt := 0;
    while attempt < MaxAttempts
      invariant 0 <= attempt <= MaxAttempts
      invariant forall k :: 0 <= k < attempt ==> Retryable(upstream(k))
      invariant waits == Waits(30000, attempt)
      invariant attempt > 0 ==> lastError == ErrorOf(upstream(attempt - 1))
    {
      match upstream(attempt) {
        case Threw(message) =>
          // not caught inside the loop: the handler's outer `catch` answers 500
          reply := Refuse(500, Some(message));
          return;
        case Parsed(r) =>
          var e := r.error;
          if RateLimited(e) {
            lastError := e.message.value;
            waits := waits + [Backoff(30000, attempt)];
            attempt := attempt + 1;
            continue;
          }
          if Overloaded(e) {
            lastError := "Overloaded";
            waits := waits + [Backoff(30000, attempt)];
            attempt := attempt + 1;
            continue;
          }
          if HasError(e) {
            reply := Refuse(400, MessageOf(e));
            return;
          }
          reply := Deliver(r.data);
          return;
      }
    }
    reply := Refuse(429, Some(Exhausted + lastError));
  }

  /** `POST`: the key is resolved before any attempt; `sent` is the body the attempts post. */
  method Handle<D>(req: Request, envKey: string, upstream: nat -> Attempt<D>)
    returns (sent: Option<Body>, reply: Reply<D>, waits: seq<nat>)
    ensures ResolveKey(req.apiKey, envKey).None? ==> sent == None && reply == Refuse(400, Some(MissingKey)) && waits == []
    ensures ResolveKey(req.apiKey, envKey).Some? ==>
      sent.Some? && sent.value.messages == [Message("user", req.prompt)]
      && reply == Outcome(upstream) && waits == Waits(30000, Retried(upstream))
  {
    var key := ResolveKey(req.apiKey, envKey);
    if key.None? {
      return None, Refuse(400, Some(MissingKey)), [];
    }
    var body := BuildBody(req);
    sent := Some(body);
    reply, waits := Retry(upstream);
  }

  // ------------------------------------------------------------ properties

  /** Retrying depends on the body only: an error body without a rate-limit or overload message is final. */
  lemma RetryDecidedByBody<D>(a: Attempt<D>)
    ensures Retryable(a) <==> a.Parsed? && (RateLimited(a.answer.error) || a.answer.error == ErrorText("Overloaded"))
    ensures Retryable(a) ==> HasError(a.answer.error)
  {
  }

  /** Three retried attempts, and only they, end in 429 carrying the last retried error. */
  lemma ExhaustedIff<D>(upstream: nat -> Attempt<D>)
    ensures (Outcome(upstream).Refuse? && Outcome(upstream).status == 429) <==> Retried(upstream) == MaxAttempts
  {
    var n := Retried(upstream);
    if n < MaxAttempts {
      assert !Retryable(upstream(n));
    }
  }

  /** A body without a truthy error is delivered unchanged; an error that is not retried answers 400. */
  lemma SettleCases<D>(upstream: nat -> Attempt<D>)
    requires Retried(upstream) < MaxAttempts && upstream(Retried(upstream)).Parsed?
    ensures var r := upstream(Retried(upstream)).answer;
      && (!HasError(r.error) ==> Outcome(upstream) == Deliver(r.data))
      && (HasError(r.error) ==> Outcome(upstream) == Refuse(400, MessageOf(r.error)))
  {
  }

  /** A message naming an overload is retried, whatever its case elsewhere: only `verloaded` is looked for. */
  lemma OverloadedMessageRetried<D>(data: D)
    ensures Retryable(Parsed(Answer(ErrorObject(Some("Overloaded")), data)))
  {
    var m := "Overloaded";
    assert OccursAt(m, "verloaded", 1) by {
      assert m[1..10] == "verloaded";
    }
    ContainsWhenOccurs(m, "verloaded", 1);
  }
}
