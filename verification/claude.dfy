/** The Claude adapter (providers/claude.go): a direct HTTP post with its
    own status check, the reply decoded from `completion` or streamed line
    by line. */
module Claude {
  import opened Wrappers
  import opened LlmTypes
  import opened Config
  import opened Adapters
  import LlmAgent

  const Name: string := "claude"
  const BaseURL: string := "https://api.anthropic.com"
  const DefaultModel: string := "claude-v1"
  const SupportedModels: seq<string> := ["claude-v1", "claude-instant-v1"]

  /** `NewClaude`: the options over the Anthropic base URL and a 30-second
      timeout; the model defaults to claude-v1, and the supported models are
      claude-v1 and claude-instant-v1 whatever the options say. */
  function New(apiKey: string, opts: seq<ConfigOption>): (p: Adapter)
    ensures p.apiKey == apiKey
    ensures p.cfg.supportedModels == ["claude-v1", "claude-instant-v1"]
    ensures p.cfg.defaultModel != ""
    ensures OptionModel(opts) == "" ==> p.cfg.defaultModel == "claude-v1"
    ensures OptionModel(opts) != "" ==> p.cfg.defaultModel == OptionModel(opts)
    ensures forall f :: f != DefaultModelField ==>
      Get(p.cfg, f) == LastSet(opts, f).GetOr(Get(Base("https://api.anthropic.com"), f))
    ensures opts == [] ==> p.cfg.baseURL == "https://api.anthropic.com" && p.cfg.timeout == 30 * Second
  {
    Construct(apiKey, BaseURL, opts, DefaultModel, SupportedModels)
  }

  /** The payload the goroutine posts: the defaulted request's model,
      messages and numeric fields, and its streaming decision. */
  function Sent(p: Adapter, req: Request): (pl: Payload)
    ensures pl.messages == req.messages && pl.prompt == "" && pl.stop == []
    ensures pl.model == if req.model == "" then p.cfg.defaultModel else req.model
    ensures pl.stream == StreamValue(ApplyDefaults(p.cfg, req))
    ensures pl.maxTokens != 0
    ensures var r := ApplyDefaults(p.cfg, req);
      r.stream.Some? ==> PayloadAsWritten(r, r.messages, "", []) == Some(pl)
  {
    var r := ApplyDefaults(p.cfg, req);
    ApplyDefaultsIdempotent(p.cfg, req);
    NilStreamCrashes(p.cfg, req, r.messages, "", []);
    IntendedPayload(r, r.messages, "", [])
  }

  /** `Complete`. An empty API key is refused; otherwise the channel
      delivers one error response for a transport error or a status other
      than 200, one response with the decoded `completion` (or the decoding
      error) for a whole reply, and one response per complete line for a
      streamed one. */
  function Complete(p: Adapter, req: Request, t: Transport, completion: string -> Result<string, Error>): (a: Answer)
    ensures a.Refused? <==> p.apiKey == ""
    ensures a.Refused? ==> a.err == ApiKeyRequired
    ensures a.Streamed? ==>
      var got := SendUnchecked(t, Sent(p, req));
      && (got.Failure? ==> a.items == [Response("", Some(got.error))])
      && (got.Success? && !StreamValue(ApplyDefaults(p.cfg, req)) ==>
            a.items == Whole(TextDecoder(completion), got.value.data) && |a.items| == 1)
      && (got.Success? && StreamValue(ApplyDefaults(p.cfg, req)) ==> a.items == LineResponses(got.value))
  {
    if p.apiKey == "" then Refused(ApiKeyRequired)
    else
      var r := ApplyDefaults(p.cfg, req);
      var got := SendUnchecked(t, Sent(p, req));
      if got.Success? && StreamValue(r) then
        TextStreamRoundTrip(TextDecoder(completion), got.value);
        Streamed(Respond(got, true, TextDecoder(completion)))
      else
        Streamed(Respond(got, StreamValue(r), TextDecoder(completion)))
  }

  /** The agent's `MaxTokens` defaulting before the call changes nothing
      the adapter does. */
  lemma AgentDefaultingInvisible(p: Adapter, req: Request, t: Transport, completion: string -> Result<string, Error>)
    ensures Complete(p, LlmAgent.DefaultMaxTokens(p.cfg, req), t, completion) == Complete(p, req, t, completion)
  {
    AgentDefaultingAbsorbed(p.cfg, req);
  }

  /** A status other than 200 is reported in band, once, with its status
      and body, whatever the request asked for. */
  lemma StatusReported(p: Adapter, req: Request, t: Transport, completion: string -> Result<string, Error>,
                       status: int, body: Body)
    requires p.apiKey != ""
    requires t(if PayloadEncodable(Sent(p, req)) then Some(Sent(p, req)) else None) == Reply(status, body)
    requires status != 200
    ensures Complete(p, req, t, completion) == Streamed([Response("", Some(HttpStatus(status, body.data)))])
  {
  }

  /** A NaN or infinite float is not caught: an empty body is posted. */
  lemma UnencodablePostsEmptyBody(p: Adapter, req: Request, t: Transport, completion: string -> Result<string, Error>)
    requires p.apiKey != ""
    requires !ApplyDefaults(p.cfg, req).temperature.Encodable() || !ApplyDefaults(p.cfg, req).topP.Encodable()
    ensures SendUnchecked(t, Sent(p, req)) == CheckStatus(t(None))
  {
  }

  /** A cleanly ended streamed reply reassembles: the delivered contents
      and the dropped unterminated tail are the body. */
  lemma StreamRoundTrip(p: Adapter, req: Request, t: Transport, completion: string -> Result<string, Error>, data: string)
    requires p.apiKey != "" && StreamValue(ApplyDefaults(p.cfg, req))
    requires SendUnchecked(t, Sent(p, req)) == Success(Body(data, None))
    ensures Complete(p, req, t, completion).Streamed?
    ensures ContentOf(Complete(p, req, t, completion).items) + SplitLines(data).rest == data
  {
    LineResponsesRoundTrip(Body(data, None));
  }

  /** Registered with the agent, the adapter is retried only for a
      missing key. With a key its first call is the attempt's success,
      whatever the network does, because request failures are delivered
      on the channel. */
  lemma AgentAttempts(ms: map<string, LlmAgent.Metrics>, p: Adapter, req: Request,
                      ts: nat -> Transport, completion: string -> Result<string, Error>, latency: nat -> nat, k: nat)
    ensures var answer := (r: Request, j: nat) => Complete(p, r, ts(j), completion);
      var tr := LlmAgent.TryProvider(ms, Name, p.cfg, req, AdapterOracle(answer, latency), k);
      && (p.apiKey == "" ==> |tr.trace| == LlmAgent.AttemptBudget(p.cfg) && tr.result == Failure(ApiKeyRequired))
      && (p.apiKey != "" ==> |tr.trace| == 1 && tr.result.Success?)
  {
    var answer := (r: Request, j: nat) => Complete(p, r, ts(j), completion);
    if p.apiKey == "" {
      forall j
        ensures answer(req, j) == Refused(ApiKeyRequired)
      {
        assert answer(req, j) == Complete(p, req, ts(j), completion);
      }
    } else {
      assert answer(req, k) == Complete(p, req, ts(k), completion);
    }
    AdapterAttempts(ms, Name, p.cfg, req, answer, latency, k, ApiKeyRequired);
  }
}
