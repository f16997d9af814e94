/** The DeepSeek adapter (providers/deepseek.go): a direct HTTP post with
    its own status check, the reply decoded from `text` or streamed line by
    line. Unlike the other adapters it has no API-key check, no default
    model and no supported models. */
module DeepSeek {
  import opened Wrappers
  import opened LlmTypes
  import opened Config
  import opened Adapters
  import LlmAgent

  const Name: string := "deepseek"
  const BaseURL: string := "https://api.deepseek.ai"

  /** `NewDeepSeek`: the options over the DeepSeek base URL and a 30-second
      timeout, nothing else. */
  function New(apiKey: string, opts: seq<ConfigOption>): (p: Adapter)
    ensures p.apiKey == apiKey
    ensures p.cfg.supportedModels == []
    ensures p.cfg.defaultModel == OptionModel(opts)
    ensures forall f :: Get(p.cfg, f) == LastSet(opts, f).GetOr(Get(Base("https://api.deepseek.ai"), f))
    ensures opts == [] ==> p.cfg == ZeroConfig.(baseURL := "https://api.deepseek.ai", timeout := 30 * Second)
  {
    var p := ConstructPlain(apiKey, BaseURL, opts);
    assert Get(p.cfg, DefaultModelField) == LastSet(opts, DefaultModelField).GetOr(StrVal(""));
    p
  }

  /** The payload the goroutine posts: the messages (as `prompts`), the
      defaulted model and numeric fields, and the streaming decision. */
  function Sent(p: Adapter, req: Request): (pl: Payload)
    ensures pl.messages == req.messages && pl.prompt == "" && pl.stop == []
    ensures pl.model == if req.model == "" then p.cfg.defaultModel else req.model
    ensures pl.stream == StreamValue(ApplyDefaults(p.cfg, req))
    ensures pl.maxTokens != 0
    ensures var r := ApplyDefaults(p.cfg, req);
      r.stream.Some? ==> PayloadAsWritten(r, r.messages, "", []) == Some(pl)
  {
    var r := ApplyDefaults(p.cfg, req);
    ApplyDefaultsIdempotent(p.cfg, req);
    NilStreamCrashes(p.cfg, req, r.messages, "", []);
    IntendedPayload(r, r.messages, "", [])
  }

  /** `Complete`: never refused, whatever the key. The channel delivers
      one error response for a transport error or a status other than 200,
      one response with the decoded `text` (or the decoding error) for a
      whole reply, and one response per complete line for a streamed one. */
  function Complete(p: Adapter, req: Request, t: Transport, text: string -> Result<string, Error>): (a: Answer)
    ensures a.Streamed?
    ensures var got := SendUnchecked(t, Sent(p, req));
      && (got.Failure? ==> a.items == [Response("", Some(got.error))])
      && (got.Success? && !StreamValue(ApplyDefaults(p.cfg, req)) ==>
            a.items == Whole(TextDecoder(text), got.value.data) && |a.items| == 1)
      && (got.Success? && StreamValue(ApplyDefaults(p.cfg, req)) ==> a.items == LineResponses(got.value))
  {
    var r := ApplyDefaults(p.cfg, req);
    var got := SendUnchecked(t, Sent(p, req));
    if got.Success? && StreamValue(r) then
      TextStreamRoundTrip(TextDecoder(text), got.value);
      Streamed(Respond(got, true, TextDecoder(text)))
    else
      Streamed(Respond(got, StreamValue(r), TextDecoder(text)))
  }

  /** The key plays no part: an empty key is sent as it is. */
  lemma KeyNotChecked(p: Adapter, req: Request, t: Transport, text: string -> Result<string, Error>)
    ensures Complete(p, req, t, text) == Complete(p.(apiKey := ""), req, t, text)
  {
  }

  /** Without a `WithDefaultModel` option and without a model in the
      request, the model posted is empty. */
  lemma NoModelPosted(apiKey: string, opts: seq<ConfigOption>, req: Request)
    requires OptionModel(opts) == "" && req.model == ""
    ensures Sent(New(apiKey, opts), req).model == ""
  {
  }

  /** The agent's `MaxTokens` defaulting before the call changes nothing
      the adapter does. */
  lemma AgentDefaultingInvisible(p: Adapter, req: Request, t: Transport, text: string -> Result<string, Error>)
    ensures Complete(p, LlmAgent.DefaultMaxTokens(p.cfg, req), t, text) == Complete(p, req, t, text)
  {
    AgentDefaultingAbsorbed(p.cfg, req);
  }

  /** A status other than 200 is reported in band, once, with its status
      and body. */
  lemma StatusReported(p: Adapter, req: Request, t: Transport, text: string -> Result<string, Error>,
                       status: int, body: Body)
    requires t(if PayloadEncodable(Sent(p, req)) then Some(Sent(p, req)) else None) == Reply(status, body)
    requires status != 200
    ensures Complete(p, req, t, text) == Streamed([Response("", Some(HttpStatus(status, body.data)))])
  {
  }

  /** A cleanly ended streamed reply reassembles: the delivered contents
      and the dropped unterminated tail are the body. */
  lemma StreamRoundTrip(p: Adapter, req: Request, t: Transport, text: string -> Result<string, Error>, data: string)
    requires StreamValue(ApplyDefaults(p.cfg, req))
    requires SendUnchecked(t, Sent(p, req)) == Success(Body(data, None))
    ensures ContentOf(Complete(p, req, t, text).items) + SplitLines(data).rest == data
  {
    LineResponsesRoundTrip(Body(data, None));
  }

  /** Registered with the agent, the adapter is never retried: its first
      call is the attempt's success, whatever the network does, because
      request failures are delivered on the channel. */
  lemma AgentAttempts(ms: map<string, LlmAgent.Metrics>, p: Adapter, req: Request,
                      ts: nat -> Transport, text: string -> Result<string, Error>, latency: nat -> nat, k: nat)
    ensures var answer := (r: Request, j: nat) => Complete(p, r, ts(j), text);
      var tr := LlmAgent.TryProvider(ms, Name, p.cfg, req, AdapterOracle(answer, latency), k);
      |tr.trace| == 1 && tr.result.Success?
  {
    var answer := (r: Request, j: nat) => Complete(p, r, ts(j), text);
    assert answer(req, k) == Complete(p, req, ts(k), text);
    AdapterAttempts(ms, Name, p.cfg, req, answer, latency, k, ApiKeyRequired);
  }
}
