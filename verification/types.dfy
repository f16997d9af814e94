/** The request and response records shared by the agent and every provider
    adapter (llm.go). */
module LlmTypes {
  import opened Wrappers

  /** Durations and instants are integers counting nanoseconds, as Go's
      `time.Duration` does. */
  const Millisecond: int := 1_000_000
  const Second: int := 1000 * Millisecond
  const Minute: int := 60 * Second

  /** A `float64` as the code uses it: compared with zero (the "unset"
      marker, which negative zero also passes), JSON-encoded for the cache
      key (where `-0` and `0` differ, and NaN and the infinities fail), and
      otherwise passed along. Distinct ids are distinct values. */
  datatype Float = Zero | NegZero | NonZero(id: int) | NonFinite(id: int) {
    predicate IsZero() { Zero? || NegZero? }
    predicate Encodable() { !NonFinite? }
  }

  /** One conversational turn. */
  datatype Message = Message(role: string, content: string)

  /** A completion request. `stream` is the tri-state `*bool`; the numeric
      fields use zero for "not specified". */
  datatype Request = Request(
    messages: seq<Message>,
    model: string,
    stream: Option<bool>,
    temperature: Float,
    maxTokens: int,
    topP: Float,
    stop: seq<string>)

  /** The errors the core and its adapters produce. The Go code builds them
      with `errors.New`/`fmt.Errorf`; each constructor stands for one message. */
  datatype Error =
    | ProviderNotRegistered(name: string)   // "provider %q not registered"
    | DefaultNotRegistered                  // "default provider not registered"
    | NoModelSpecified                      // "no model specified"
    | AllProvidersFailed(last: Error)       // "all providers failed; last error: %v"
    | ApiKeyRequired                        // "API key is required"
    | HttpStatus(status: int, body: string) // "HTTP <status text>: <body>"
    | Backend(msg: string)                  // transport, read or decoding failure

  /** One element of a response stream: content, or an in-band error. */
  datatype Response = Response(content: string, err: Option<Error>)

  /** The zero `CompletionResponse`, which a receive on a closed, empty
      channel yields. */
  const EmptyResponse := Response("", None)

  /** The effective streaming decision: an explicit `stream` wins; otherwise
      a positive `maxTokens` means streaming. */
  function StreamValue(req: Request): bool {
    match req.stream
    case Some(b) => b
    case None => req.maxTokens > 0
  }

  /** StreamValue's three cases, stated as what a caller may rely on: an
      explicit flag is obeyed in both directions, and an unset flag streams
      exactly when `maxTokens` is positive. */
  lemma StreamValueCases(req: Request)
    ensures req.stream == Some(true) ==> StreamValue(req)
    ensures req.stream == Some(false) ==> !StreamValue(req)
    ensures req.stream.None? ==> (StreamValue(req) <==> req.maxTokens > 0)
    ensures StreamValue(req) <==> (req.stream == Some(true) || (req.stream.None? && req.maxTokens > 0))
  {
  }
}
