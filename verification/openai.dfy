/** The OpenAI adapter (providers/openai.go): chat completions through the
    OpenAI client of sdk/openai/sdk.go, decoded from `choices`, streamed as
    `data: ` chunks. */
module OpenAI {
  import opened Wrappers
  import opened LlmTypes
  import opened Config
  import opened Adapters
  import LlmAgent

  const Name: string := "openai"
  const BaseURL: string := "https://api.openai.com"
  const DefaultModel: string := "gpt-3.5-turbo"
  const SupportedModels: seq<string> := ["gpt-3.5-turbo", "gpt-4"]

  /** `NewOpenAI`: the options over the OpenAI base URL and a 30-second
      timeout; the model defaults to gpt-3.5-turbo, and the supported models
      are gpt-3.5-turbo and gpt-4 whatever the options say. */
  function New(apiKey: string, opts: seq<ConfigOption>): (p: Adapter)
    ensures p.apiKey == apiKey
    ensures p.cfg.supportedModels == ["gpt-3.5-turbo", "gpt-4"]
    ensures p.cfg.defaultModel != ""
    ensures OptionModel(opts) == "" ==> p.cfg.defaultModel == "gpt-3.5-turbo"
    ensures OptionModel(opts) != "" ==> p.cfg.defaultModel == OptionModel(opts)
    ensures forall f :: f != DefaultModelField ==>
      Get(p.cfg, f) == LastSet(opts, f).GetOr(Get(Base("https://api.openai.com"), f))
    ensures opts == [] ==> p.cfg.baseURL == "https://api.openai.com" && p.cfg.timeout == 30 * Second
  {
    Construct(apiKey, BaseURL, opts, DefaultModel, SupportedModels)
  }

  /** The payload the goroutine posts: the defaulted request's model,
      messages and numeric fields, and its streaming decision. */
  function Sent(p: Adapter, req: Request): (pl: Payload)
    ensures pl.messages == req.messages && pl.prompt == "" && pl.stop == []
    ensures pl.model == if req.model == "" then p.cfg.defaultModel else req.model
    ensures pl.stream == StreamValue(ApplyDefaults(p.cfg, req))
    ensures pl.maxTokens != 0
    ensures var r := ApplyDefaults(p.cfg, req);
      r.stream.Some? ==> PayloadAsWritten(r, r.messages, "", []) == Some(pl)
  {
    var r := ApplyDefaults(p.cfg, req);
    ApplyDefaultsIdempotent(p.cfg, req);
    NilStreamCrashes(p.cfg, req, r.messages, "", []);
    IntendedPayload(r, r.messages, "", [])
  }

  /** `Complete`. An empty API key is refused before anything else; every
      other call returns a channel. What the channel delivers depends on
      the client's result: a failure is one error response, a whole reply
      its first choice (if any), a streamed reply the chunks of its
      `data: ` lines. */
  function Complete(p: Adapter, req: Request, t: Transport,
                    choices: string -> Result<seq<string>, Error>,
                    chunk: string -> Option<seq<string>>): (a: Answer)
    ensures a.Refused? <==> p.apiKey == ""
    ensures a.Refused? ==> a.err == ApiKeyRequired
    ensures a.Streamed? ==>
      var got := SendChecked(t, Sent(p, req));
      && (got.Failure? ==> a.items == [Response("", Some(got.error))])
      && (got.Success? && !StreamValue(ApplyDefaults(p.cfg, req)) ==>
            a.items == Whole(ChatDecoder(choices, chunk), got.value.data) && |a.items| <= 1)
      && (got.Success? && StreamValue(ApplyDefaults(p.cfg, req)) ==>
            a.items == Stream(ChatDecoder(choices, chunk), SplitLines(got.value.data).lines)
                       + ReadFailure(got.value.readErr))
  {
    if p.apiKey == "" then Refused(ApiKeyRequired)
    else
      var r := ApplyDefaults(p.cfg, req);
      Streamed(Respond(SendChecked(t, Sent(p, req)), StreamValue(r), ChatDecoder(choices, chunk)))
  }

  /** The agent's `MaxTokens` defaulting before the call changes nothing
      the adapter does. */
  lemma AgentDefaultingInvisible(p: Adapter, req: Request, t: Transport,
                                 choices: string -> Result<seq<string>, Error>,
                                 chunk: string -> Option<seq<string>>)
    ensures Complete(p, LlmAgent.DefaultMaxTokens(p.cfg, req), t, choices, chunk) == Complete(p, req, t, choices, chunk)
  {
    AgentDefaultingAbsorbed(p.cfg, req);
  }

  /** A request with a NaN or infinite float never reaches the network:
      the answer is the encoding error, whatever the transport would do. */
  lemma UnencodableNotSent(p: Adapter, req: Request, t1: Transport, t2: Transport,
                           choices: string -> Result<seq<string>, Error>,
                           chunk: string -> Option<seq<string>>)
    requires p.apiKey != ""
    requires !ApplyDefaults(p.cfg, req).temperature.Encodable() || !ApplyDefaults(p.cfg, req).topP.Encodable()
    ensures Complete(p, req, t1, choices, chunk) == Streamed([Response("", Some(MarshalError))])
    ensures Complete(p, req, t1, choices, chunk) == Complete(p, req, t2, choices, chunk)
  {
  }

  /** A refused status is reported in band, once, with its status and
      body. */
  lemma StatusReported(p: Adapter, req: Request, t: Transport,
                       choices: string -> Result<seq<string>, Error>,
                       chunk: string -> Option<seq<string>>, status: int, body: Body)
    requires p.apiKey != "" && PayloadEncodable(Sent(p, req))
    requires t(Some(Sent(p, req))) == Reply(status, body) && status != 200
    ensures Complete(p, req, t, choices, chunk) == Streamed([Response("", Some(HttpStatus(status, body.data)))])
  {
  }

  /** Streamed lines other than `data: ` lines deliver nothing: a body
      without one yields at most the read error. */
  lemma OnlyDataLinesStream(p: Adapter, req: Request, t: Transport,
                            choices: string -> Result<seq<string>, Error>,
                            chunk: string -> Option<seq<string>>, body: Body)
    requires p.apiKey != "" && PayloadEncodable(Sent(p, req)) && StreamValue(ApplyDefaults(p.cfg, req))
    requires t(Some(Sent(p, req))) == Reply(200, body)
    requires forall i :: 0 <= i < |SplitLines(body.data).lines| ==> !HasDataPrefix(SplitLines(body.data).lines[i])
    ensures Complete(p, req, t, choices, chunk) == Streamed(ReadFailure(body.readErr))
  {
    OnlyDataLinesCount(ChatDecoder(choices, chunk), SplitLines(body.data).lines);
  }

  /** One streamed `data: ` line whose chunk decodes delivers one response
      per choice, then the stream closes. The decoder sees the rest of the
      line, its newline included. */
  lemma OneChunk(p: Adapter, req: Request, t: Transport,
                 choices: string -> Result<seq<string>, Error>,
                 chunk: string -> Option<seq<string>>, json: string, deltas: seq<string>)
    requires p.apiKey != "" && PayloadEncodable(Sent(p, req)) && StreamValue(ApplyDefaults(p.cfg, req))
    requires '\n' !in json && chunk(json + "\n") == Some(deltas)
    requires t(Some(Sent(p, req))) == Reply(200, Body(DataPrefix + json + "\n", None))
    ensures Complete(p, req, t, choices, chunk) == Streamed(Contents(deltas))
  {
    OneLineStream(ChatDecoder(choices, chunk), DataPrefix + json);
    DataLine(choices, chunk, json);
  }

  /** Registered with the agent, the adapter is retried only for a
      missing key. With a key its first call is the attempt's success,
      whatever the network does, because request failures are delivered
      on the channel. */
  lemma AgentAttempts(ms: map<string, LlmAgent.Metrics>, p: Adapter, req: Request,
                      ts: nat -> Transport, choices: string -> Result<seq<string>, Error>, chunk: string -> Option<seq<string>>, latency: nat -> nat, k: nat)
    ensures var answer := (r: Request, j: nat) => Complete(p, r, ts(j), choices, chunk);
      var tr := LlmAgent.TryProvider(ms, Name, p.cfg, req, AdapterOracle(answer, latency), k);
      && (p.apiKey == "" ==> |tr.trace| == LlmAgent.AttemptBudget(p.cfg) && tr.result == Failure(ApiKeyRequired))
      && (p.apiKey != "" ==> |tr.trace| == 1 && tr.result.Success?)
  {
    var answer := (r: Request, j: nat) => Complete(p, r, ts(j), choices, chunk);
    if p.apiKey == "" {
      forall j
        ensures answer(req, j) == Refused(ApiKeyRequired)
      {
        assert answer(req, j) == Complete(p, req, ts(j), choices, chunk);
      }
    } else {
      assert answer(req, k) == Complete(p, req, ts(k), choices, chunk);
    }
    AdapterAttempts(ms, Name, p.cfg, req, answer, latency, k, ApiKeyRequired);
  }
}
