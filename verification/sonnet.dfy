/** The Sonnet adapter (providers/sonnet.go): the messages flattened into a
    prompt, posted through the Sonnet client, the reply decoded from
    `output` or streamed line by line. */
module Sonnet {
  import opened Wrappers
  import opened LlmTypes
  import opened Config
  import opened Adapters
  import LlmAgent

  const Name: string := "sonnet"
  const BaseURL: string := "https://api.cohere.ai"
  const DefaultModel: string := "sonnet-basic"
  const SupportedModels: seq<string> := ["sonnet-basic", "sonnet-pro"]

  /** The Sonnet client's `Generate`: the body of a successful reply or an
      error. */
  type Client = Payload -> Result<Body, Error>

  /** `NewSonnet`: the options over the Sonnet base URL and a 30-second
      timeout; the model defaults to sonnet-basic, and the supported models
      are sonnet-basic and sonnet-pro whatever the options say. */
  function New(apiKey: string, opts: seq<ConfigOption>): (p: Adapter)
    ensures p.apiKey == apiKey
    ensures p.cfg.supportedModels == ["sonnet-basic", "sonnet-pro"]
    ensures p.cfg.defaultModel != ""
    ensures OptionModel(opts) == "" ==> p.cfg.defaultModel == "sonnet-basic"
    ensures OptionModel(opts) != "" ==> p.cfg.defaultModel == OptionModel(opts)
    ensures forall f :: f != DefaultModelField ==>
      Get(p.cfg, f) == LastSet(opts, f).GetOr(Get(Base("https://api.cohere.ai"), f))
    ensures opts == [] ==> p.cfg.baseURL == "https://api.cohere.ai" && p.cfg.timeout == 30 * Second
  {
    Construct(apiKey, BaseURL, opts, DefaultModel, SupportedModels)
  }

  /** The payload the goroutine posts: the prompt built from the messages
      instead of the messages, the stop sequences, and the defaulted
      model, numeric fields and streaming decision. */
  function Sent(p: Adapter, req: Request): (pl: Payload)
    ensures pl.messages == [] && pl.prompt == Prompt(req.messages) && pl.stop == req.stop
    ensures pl.model == if req.model == "" then p.cfg.defaultModel else req.model
    ensures pl.stream == StreamValue(ApplyDefaults(p.cfg, req))
    ensures pl.maxTokens != 0
    ensures var r := ApplyDefaults(p.cfg, req);
      r.stream.Some? ==> PayloadAsWritten(r, [], Prompt(r.messages), r.stop) == Some(pl)
  {
    var r := ApplyDefaults(p.cfg, req);
    ApplyDefaultsIdempotent(p.cfg, req);
    NilStreamCrashes(p.cfg, req, [], Prompt(r.messages), r.stop);
    IntendedPayload(r, [], Prompt(r.messages), r.stop)
  }

  /** `Complete`. An empty API key is refused; otherwise the channel
      delivers one error response when the client fails, one response with
      the decoded `output` (or the decoding error) for a whole reply, and
      one response per complete line for a streamed one. */
  function Complete(p: Adapter, req: Request, client: Client, output: string -> Result<string, Error>): (a: Answer)
    ensures a.Refused? <==> p.apiKey == ""
    ensures a.Refused? ==> a.err == ApiKeyRequired
    ensures a.Streamed? ==>
      var got := client(Sent(p, req));
      && (got.Failure? ==> a.items == [Response("", Some(got.error))])
      && (got.Success? && !StreamValue(ApplyDefaults(p.cfg, req)) ==>
            a.items == Whole(TextDecoder(output), got.value.data) && |a.items| == 1)
      && (got.Success? && StreamValue(ApplyDefaults(p.cfg, req)) ==> a.items == LineResponses(got.value))
  {
    if p.apiKey == "" then Refused(ApiKeyRequired)
    else
      var r := ApplyDefaults(p.cfg, req);
      var got := client(Sent(p, req));
      if got.Success? && StreamValue(r) then
        TextStreamRoundTrip(TextDecoder(output), got.value);
        Streamed(Respond(got, true, TextDecoder(output)))
      else
        Streamed(Respond(got, StreamValue(r), TextDecoder(output)))
  }

  /** The agent's `MaxTokens` defaulting before the call changes nothing
      the adapter does. */
  lemma AgentDefaultingInvisible(p: Adapter, req: Request, client: Client, output: string -> Result<string, Error>)
    ensures Complete(p, LlmAgent.DefaultMaxTokens(p.cfg, req), client, output) == Complete(p, req, client, output)
  {
    AgentDefaultingAbsorbed(p.cfg, req);
  }

  /** A cleanly ended streamed reply reassembles: the delivered contents
      and the dropped unterminated tail are the body. */
  lemma StreamRoundTrip(p: Adapter, req: Request, client: Client, output: string -> Result<string, Error>, data: string)
    requires p.apiKey != "" && StreamValue(ApplyDefaults(p.cfg, req))
    requires client(Sent(p, req)) == Success(Body(data, None))
    ensures Complete(p, req, client, output).Streamed?
    ensures ContentOf(Complete(p, req, client, output).items) + SplitLines(data).rest == data
  {
    LineResponsesRoundTrip(Body(data, None));
  }

  /** The server sees every turn: when no role or content holds a newline,
      the prompt's lines are the messages' turns in order. */
  lemma PromptCarriesTurns(p: Adapter, req: Request)
    requires forall i :: 0 <= i < |req.messages| ==> '\n' !in req.messages[i].role + ": " + req.messages[i].content
    ensures |SplitLines(Sent(p, req).prompt).lines| == |req.messages|
    ensures forall i :: 0 <= i < |req.messages| ==> SplitLines(Sent(p, req).prompt).lines[i] == Turn(req.messages[i])
  {
    PromptLines(req.messages);
  }

  /** Registered with the agent, the adapter is retried only for a
      missing key. With a key its first call is the attempt's success,
      whatever the network does, because request failures are delivered
      on the channel. */
  lemma AgentAttempts(ms: map<string, LlmAgent.Metrics>, p: Adapter, req: Request,
                      clients: nat -> Client, output: string -> Result<string, Error>, latency: nat -> nat, k: nat)
    ensures var answer := (r: Request, j: nat) => Complete(p, r, clients(j), output);
      var tr := LlmAgent.TryProvider(ms, Name, p.cfg, req, AdapterOracle(answer, latency), k);
      && (p.apiKey == "" ==> |tr.trace| == LlmAgent.AttemptBudget(p.cfg) && tr.result == Failure(ApiKeyRequired))
      && (p.apiKey != "" ==> |tr.trace| == 1 && tr.result.Success?)
  {
    var answer := (r: Request, j: nat) => Complete(p, r, clients(j), output);
    if p.apiKey == "" {
      forall j
        ensures answer(req, j) == Refused(ApiKeyRequired)
      {
        assert answer(req, j) == Complete(p, req, clients(j), output);
      }
    } else {
      assert answer(req, k) == Complete(p, req, clients(k), output);
    }
    AdapterAttempts(ms, Name, p.cfg, req, answer, latency, k, ApiKeyRequired);
  }
}
