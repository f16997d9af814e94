# llm-agent, modelled in Dafny

This project models the core of the Go library `llmagent` and proves
properties of the model. Three parts are covered:

- **The agent** (llm.go). It has two provider registries, user and system, with the user registry taking precedence. It also holds a default provider, an ordered fallback list, per-provider metrics and a response cache with expiry. `Agent.Complete` works as follows:
  1. A live cache entry answers a non-streaming request at once.
  2. Otherwise the named provider (or the default) is resolved and a model is required.
  3. `MaxTokens` is defaulted, and the provider is tried up to `RetryCount + 1` times.
  4. If every attempt fails, the fallback list is walked in order.
  5. A successful non-streaming reply is reduced to its first response and cached.
- **The four provider adapters** (providers/openai.go, sonnet.go, claude.go and deepseek.go). This covers their constructors, their per-request defaulting, the API-key check, the payload they post, their status checks and how they turn a reply body into responses: whole or line by line.
- **The secret vault** (vault/vault.go). This covers the password-to-key derivation, the one-minute authentication cache of `promptMaster`, and the map semantics of `Set`, `Get` and `Delete`.

Module layout:

| file | module | models |
|---|---|---|
| wrappers.dfy | `Wrappers` | `Option` and `Result` |
| types.dfy | `LlmTypes` | requests, responses, errors, `StreamValue` |
| config.dfy | `Config` | `ProviderConfig` and the `With*` options |
| cache.dfy | `Cache` | cache keys, lookup, store, the sweep |
| agent.dfy | `LlmAgent` | the agent's registries, the retry loop, the fallback loop, `Complete` |
| agent_props.dfy | `AgentProperties` | whole-call properties of `Complete` |
| adapters.dfy | `Adapters` | what the four adapters share |
| openai.dfy | `OpenAI` | providers/openai.go |
| sonnet.dfy | `Sonnet` | providers/sonnet.go |
| claude.dfy | `Claude` | providers/claude.go |
| deepseek.dfy | `DeepSeek` | providers/deepseek.go |
| vault.dfy | `Vault` | vault/vault.go |

How the model stands in for things it cannot run:

- **Providers** are an oracle `(name, request, call index) -> Attempt(result, latency)`. So one call of `Complete` is a pure function that also returns its trace: the provider calls it made, in order. Latency is a parameter of the oracle, not read from a clock.
- **A channel** is `Nil` or `Open(items)`: the finite sequence it delivers before it is closed. A receive from the nil channel, which never returns in Go, is the outcome `Blocked`.
- **The cache key** is the projected `CachedRequest` itself. That treats SHA-256 of its JSON as collision-free. A request with a NaN or infinite float has no key, because `json.Marshal` fails on it.
- **Floats** are zero, negative zero, a finite non-zero value named by an identifier, or a non-finite value. The code compares them with zero, where negative zero counts as zero, and JSON-encodes them for the cache key, where `-0` and `0` differ and NaN and the infinities fail. Otherwise it only passes them along.
- **Time** is an integer count of nanoseconds. The clock is passed in: one instant for the cache lookup and one for the store.
- **The adapters' HTTP client** is a function from the posted payload to an `Exchange`: no reply, or a status and a body. The body is the text read plus the error that ended the reading. JSON decoding of replies is a function parameter too.
- **The vault's terminal prompts, cipher and file** are one `AuthStep` value: the outcome of the prompt, setup or unlock. Each save is an `Option<VaultError>`.

Behaviour kept as the code has it, even where it looks unintended:

- `Complete` defaults `MaxTokens` after the cache lookup, so the entry it writes may sit under a different key than the one it read.
- An unset `Stream` with `MaxTokens` 0, for a provider whose `DefaultMaxTokens` is also 0, reads as non-streaming for the lookup but as streaming afterwards.
- With no fallback list, a primary failure is not reported. A streaming caller gets a nil channel; a non-streaming caller blocks forever.
- A name listed twice in the fallback list is tried twice.
- The DeepSeek adapter has no `GetConfig` method, so it does not satisfy the `Provider` interface that examples/main.go registers it under. The model gives it a configuration like the others.

## Model

| member | source | states |
|---|---|---|
| LlmTypes.StreamValueCases | llm.go:108-116 | An explicit `Stream` is obeyed both ways. An unset one streams exactly when `MaxTokens` is positive. |
| Config.ApplyOption | llm.go:37-89 | Each `With*` option writes its own field and leaves every other field and the supported models unchanged. |
| Config.LastSetIsLast | llm.go:35-89 | `LastSet` is the value of the last option in the list writing that field. It is none exactly when no option writes the field. |
| Config.LastOptionWins | llm.go:35-89 | After the options run in order, each field holds the value of the last option that wrote it, or its starting value if none did. |
| Cache.CacheKey | llm.go:183-207 | A key exists exactly when both floats are encodable. It is made of the six projected fields only. |
| Cache.KeyDeterminedByProjection | llm.go:193-206 | Two requests share a key if and only if they agree on messages, model, temperature, max tokens, top-p and stop. |
| Cache.NegativeZeroOwnKey | llm.go:193-206 | Negative zero counts as zero, yet a request with temperature -0.0 has a different key from the same request with 0.0. |
| Cache.KeyIgnoresStream | llm.go:193-201 | The stream flag never affects the key. |
| Cache.Lookup | llm.go:257-265 | A hit requires the key to be present and its expiry strictly after now. A hit returns the stored content. |
| Cache.Put | llm.go:375-381 | The store inserts or overwrites one key, expiring TTL after now, and keeps every other entry. |
| Cache.TtlWindow | llm.go:257-265 | A stored entry is served at exactly the instants before store time plus TTL. |
| Cache.PutIsolated | llm.go:375-381 | Storing one key never changes what another key serves. |
| Cache.Sweep | llm.go:166-179 | One tick keeps exactly the entries not expiring before now, unchanged. |
| Cache.SweepIdempotent | llm.go:169-177 | A second sweep at the same instant removes nothing more. |
| Cache.SweepMonotone | llm.go:169-177 | A later sweep subsumes an earlier one and keeps no more keys. |
| Cache.SweepPreservesLookup | llm.go:172-175 | Lookups at or after the sweep instant answer the same with or without the sweep. |
| LlmAgent.NewAgent | llm.go:157-181 | A new agent resolves no provider, has an empty cache, no metrics and no fallbacks, and a five-minute TTL. |
| LlmAgent.Resolve | llm.go:276-282 | A name resolves exactly when it is in either registry. The user registry wins over the system one. |
| LlmAgent.RegisterProvidersFromUser | llm.go:210-212 | The registered name then resolves to the new provider. Every other name resolves as before. |
| LlmAgent.RegisterProvidersFromSystem | llm.go:215-217 | The name resolves to the new provider unless a user provider shadows it. Other names are unchanged. |
| LlmAgent.RegisterFallbackProviders | llm.go:245-247 | The fallback list is replaced by the given names and nothing else changes. |
| LlmAgent.SetDefault | llm.go:220-228 | This succeeds exactly for a resolvable name and then sets only the default. Otherwise it fails with "default provider not registered" and changes nothing. |
| LlmAgent.ListProviders | llm.go:231-242 | It lists exactly the resolvable names, each once, with the user names before the system-only names. |
| LlmAgent.AttemptBudget | llm.go:301-304 | A provider gets `RetryCount + 1` attempts when `RetryCount` is positive, and one otherwise. |
| LlmAgent.Retry | llm.go:307-331 | It makes between 1 and budget calls. Each call adds one success or failure and its latency. The result is the last call's result. A failure means the budget was used up. |
| LlmAgent.RetryStopsAtFirstSuccess | llm.go:315-322 | Every call before the last one failed. |
| LlmAgent.TryProvider | llm.go:293-332 | The calls all go to this provider with the same request: at least 1 and at most the budget. The result is the last call's result. A failure used the whole budget. |
| LlmAgent.TryProviderAccounted | llm.go:295-324 | The metrics change exactly as the calls made. Attempts grow by the number of calls, counters never drop, and untouched providers keep their entry. |
| LlmAgent.TryProviderStopsAtFirstSuccess | llm.go:315-322 | No call is made after a success. |
| LlmAgent.Candidates | llm.go:341-354 | The candidates are the fallback names that would be attempted. None is the primary, each resolves, and each has a model. |
| LlmAgent.DefaultMaxTokens | llm.go:287-291 | `MaxTokens` becomes 200 only when both the request and the configuration leave it 0. Otherwise the request is unchanged. |
| LlmAgent.FallbackAccounted | llm.go:341-365 | The fallback loop's metrics change exactly as the calls it makes. |
| LlmAgent.FallbackOrder | llm.go:341-366 | The fallbacks are tried in list order, as a prefix of the candidates: all of them on failure, at least one on success. |
| LlmAgent.FallbackCallsTried | llm.go:341-360 | Every provider called by the loop is one it tried. There are no calls exactly when nothing was tried. |
| LlmAgent.FallbackOnlyDefaults | llm.go:355-358 | Every request the loop sends is the original or the original with `MaxTokens` 200. |
| LlmAgent.FallbackResult | llm.go:358-366 | A success is the last call's result on the loop's final request. A failure is "all providers failed" with the last call's error, or with the primary's error when no fallback was called. |
| LlmAgent.Deliver | llm.go:369-396 | A streaming request returns the channel as it is. A non-streaming one blocks on nil, or returns a one-item channel with the first response. The cache changes only to store a first response without error under the request's key. |
| LlmAgent.Route | llm.go:272-275 | An empty provider name means the default. |
| LlmAgent.Complete | llm.go:251-397 | A call changes at most the metrics and the cache. |
| LlmAgent.Dispatch | llm.go:334-396 | Once dispatched, at least one provider call is made, and only the metrics and cache change. |
| AgentProperties.CacheHitServes | llm.go:253-269 | A cache hit returns the cached content as a one-item channel, calls nothing and changes nothing. |
| AgentProperties.RefusedWithoutCalls | llm.go:272-286 | An unregistered provider or a missing model fails with that error, calls nothing and changes nothing. |
| AgentProperties.CompleteDispatches | llm.go:283-291 | Otherwise the call dispatches the request with `MaxTokens` defaulted and the model unchanged. |
| AgentProperties.DispatchAccounted | llm.go:293-367 | The metrics after a whole call account exactly for the calls of its trace. |
| AgentProperties.CompleteAccounted | llm.go:251-397 | The metrics after a whole call account exactly for the calls of its trace. |
| AgentProperties.FallbackCalledViable | llm.go:341-354 | Any provider the fallback loop calls is in the fallback list, is not the primary, resolves and has a model. |
| AgentProperties.DispatchSplit | llm.go:334-367 | The trace is the primary's calls followed by the fallback loop's calls. The loop runs only after a primary failure with a non-empty list, and the primary is never called again by it. |
| AgentProperties.PrimaryAttempts | llm.go:301-336 | The primary is called first, between 1 and budget times, with the defaulted request, and every call but the last failed. A fallback call implies the primary failed its whole budget and the list is non-empty. |
| AgentProperties.FallbackCalls | llm.go:341-358 | Every call after the primary's goes to a viable name on the fallback list. Every request sent is the defaulted original. |
| AgentProperties.Delivered | llm.go:358-396 | A final success is delivered through the cache-store step on the last request. A primary failure with no fallbacks delivers the nil channel. A failure with fallbacks returns "all providers failed" with the last error. |
| AgentProperties.DefaultedRequestMissesOwnEntry | llm.go:253-381 | When `MaxTokens` is defaulted, the entry written is never the one the same request looks up. |
| AgentProperties.UnsetStreamBecomesStreaming | llm.go:287-396 | An unset `Stream` with `MaxTokens` 0 (and no configured default) is looked up as non-streaming but delivered as streaming, without caching. A primary failure with no fallbacks then returns the nil channel. |
| AgentProperties.DuplicateFallbackTriedTwice | llm.go:341-366 | An example agent, not a statement about every list: a fallback list `["f", "f"]` calls `f` twice after the primary and then fails with the last error. |
| Adapters.LastOptionWinsAll | providers/openai.go:31-33 | Every field of the constructed configuration holds the last option's value or the base value. |
| Adapters.Construct | providers/openai.go:25-42 | A constructor keeps the key. Every field but the model is set by the options over the base URL and 30 s timeout. An empty model takes the adapter's default, and the supported models are fixed. |
| Adapters.ConstructPlain | providers/deepseek.go:23-35 | The DeepSeek constructor applies only the options over its base, with no supported models. |
| Adapters.ApplyDefaults | providers/openai.go:57-74 | Each unset request field takes the configuration's value, field by field. `MaxTokens` falls back to 200, and messages and stop are untouched. |
| Adapters.ApplyDefaultsIdempotent | providers/openai.go:57-74 | After defaulting, `MaxTokens` is non-zero, and defaulting again changes nothing. |
| Adapters.AgentDefaultingAbsorbed | llm.go:287-291 | The agent's `MaxTokens` defaulting followed by the adapter's equals the adapter's alone. |
| Adapters.PayloadAsWritten | providers/openai.go:78-85 | The payload as written exists exactly when the defaulted `Stream` is set, and then carries it. |
| Adapters.IntendedPayload | providers/openai.go:78-93 | The corrected payload carries the defaulted fields and, as its stream flag, the streaming decision used to read the reply. |
| Adapters.NilStreamCrashes | providers/openai.go:60-81 | The two payloads agree whenever `Stream` is set. With neither the request nor the configuration setting it, the written one is a nil dereference, e.g. for the zero configuration. |
| Adapters.SplitLines | providers/openai.go:109-117 | Reading up to each newline splits a body into complete lines and an unterminated tail: the lines and the tail concatenate back to the body. |
| Adapters.SplitLinesUnique | providers/openai.go:110-117 | Any such decomposition is the split: a body determines its lines. |
| Adapters.SplitLinesAppend | providers/openai.go:109-117 | Reading is incremental: a body ending on a line boundary followed by more data gives the first part's lines, then the second's. |
| Adapters.LineResponses | providers/sonnet.go:107-117 | One response per complete line, newline kept. A read error other than EOF adds exactly one error response. |
| Adapters.LineResponsesRoundTrip | providers/sonnet.go:107-117 | A cleanly ended stream's contents plus the dropped tail are the body. |
| Adapters.Whole | providers/openai.go:93-107 | A whole text reply is exactly one response: text or decoding error. An OpenAI reply is at most one: the first choice, nothing if there is none, or the decoding error. |
| Adapters.PerLine | providers/openai.go:118-131 | A text adapter emits the line itself. OpenAI emits one response per choice of a `data: ` line whose rest decodes, and nothing for any other line. |
| Adapters.Stream | providers/openai.go:110-132 | The read loop never emits an error response for a complete line. |
| Adapters.TextStreamRoundTrip | providers/claude.go:111-121 | A text adapter's stream is one response per line, and a clean stream reassembles to the body. |
| Adapters.StreamIncremental | providers/openai.go:109-132 | Streaming two parts split at a line boundary gives the first part's responses, then the second's. |
| Adapters.DataLine | providers/openai.go:118-126 | A `data: ` line hands the rest of the line, newline included, to the chunk decoder. |
| Adapters.OnlyDataLinesCount | providers/openai.go:118-131 | Lines without the `data: ` prefix contribute nothing to an OpenAI stream. |
| Adapters.AdapterAttempts | llm.go:307-331 | Registered with the agent, an adapter that returns a channel is called once, and that channel is the attempt's success. One that refuses every call is called the whole budget and fails with its refusal. |
| Adapters.PromptAppend | providers/sonnet.go:122-128 | The prompt of concatenated messages is the concatenation of their prompts. |
| Adapters.PromptLines | providers/sonnet.go:122-128 | When no role or content holds a newline, the prompt's lines are the messages' turns, one per message in order. |
| Adapters.ConcatenateMessages | providers/sonnet.go:122-128 | The buffer loop builds exactly `role: content` plus a newline for every message, in order. |
| OpenAI.New | providers/openai.go:24-42 | The key is kept. The model defaults to gpt-3.5-turbo. The supported models are gpt-3.5-turbo and gpt-4. The other fields come from the options over api.openai.com and 30 s. |
| OpenAI.Sent | providers/openai.go:56-85 | The payload carries the messages, the defaulted model, a non-zero `MaxTokens` and the streaming decision. When the defaulted `Stream` is set, it is exactly the payload as written. |
| OpenAI.Complete | providers/openai.go:52-135 | An empty key is refused with "API key is required" and is the only refusal. Otherwise a client failure is one error, a whole reply is at most one response, and a stream is the `data: ` chunks then the read error. |
| OpenAI.AgentDefaultingInvisible | providers/openai.go:66-71 | The agent's `MaxTokens` defaulting changes nothing the adapter does. |
| OpenAI.UnencodableNotSent | sdk/openai/sdk.go:36-39 | A NaN or infinite float yields the encoding error, whatever the network would do. |
| OpenAI.StatusReported | sdk/openai/sdk.go:50-53 | A status other than 200 is reported in band, once, with status and body. |
| OpenAI.OnlyDataLinesStream | providers/openai.go:109-132 | A streamed body without `data: ` lines delivers nothing but the read error. |
| OpenAI.OneChunk | providers/openai.go:118-130 | One `data: ` line whose chunk decodes delivers one response per choice. |
| OpenAI.AgentAttempts | llm.go:307-331 | With the agent, an adapter without a key is called the whole budget and fails with "API key is required". One with a key is called once and succeeds, whatever the network does. |
| Sonnet.New | providers/sonnet.go:24-41 | The key is kept. The model defaults to sonnet-basic. The supported models are sonnet-basic and sonnet-pro. The other fields come from the options over api.cohere.ai and 30 s. |
| Sonnet.Sent | providers/sonnet.go:55-87 | The payload carries the prompt built from the messages, the stop sequences, the defaulted model, a non-zero `MaxTokens` and the streaming decision. When the defaulted `Stream` is set, it is exactly the payload as written. |
| Sonnet.Complete | providers/sonnet.go:51-120 | An empty key is the only refusal. Otherwise a client failure is one error, a whole reply exactly one response, and a stream one response per complete line. |
| Sonnet.AgentDefaultingInvisible | providers/sonnet.go:65-70 | The agent's `MaxTokens` defaulting changes nothing the adapter does. |
| Sonnet.StreamRoundTrip | providers/sonnet.go:107-117 | A clean stream's contents plus the dropped tail are the body. |
| Sonnet.PromptCarriesTurns | providers/sonnet.go:79 | The prompt's lines are the request's turns, one per message. |
| Sonnet.AgentAttempts | llm.go:307-331 | With the agent, an adapter without a key is called the whole budget and fails with "API key is required". One with a key is called once and succeeds, whatever the client does. |
| Claude.New | providers/claude.go:23-40 | The key is kept. The model defaults to claude-v1. The supported models are claude-v1 and claude-instant-v1. The other fields come from the options over api.anthropic.com and 30 s. |
| Claude.Sent | providers/claude.go:54-82 | The payload carries the messages, the defaulted model, a non-zero `MaxTokens` and the streaming decision. When the defaulted `Stream` is set, it is exactly the payload as written. |
| Claude.Complete | providers/claude.go:50-124 | An empty key is the only refusal. Otherwise a transport error or non-200 status is one error, a whole reply exactly one response, and a stream one response per complete line. |
| Claude.AgentDefaultingInvisible | providers/claude.go:63-68 | The agent's `MaxTokens` defaulting changes nothing the adapter does. |
| Claude.StatusReported | providers/claude.go:92-97 | A status other than 200 is reported in band, once, with status and body. |
| Claude.UnencodablePostsEmptyBody | providers/claude.go:83-87 | A NaN or infinite float is not caught: an empty body is posted. |
| Claude.StreamRoundTrip | providers/claude.go:111-121 | A clean stream's contents plus the dropped tail are the body. |
| Claude.AgentAttempts | llm.go:307-331 | With the agent, an adapter without a key is called the whole budget and fails with "API key is required". One with a key is called once and succeeds, whatever the network does. |
| DeepSeek.New | providers/deepseek.go:23-35 | The key is kept. There is no default model and there are no supported models. The fields come from the options over api.deepseek.ai and 30 s alone. |
| DeepSeek.Sent | providers/deepseek.go:42-70 | The payload carries the messages, the defaulted model, a non-zero `MaxTokens` and the streaming decision. When the defaulted `Stream` is set, it is exactly the payload as written. |
| DeepSeek.Complete | providers/deepseek.go:41-112 | It is never refused. A transport error or non-200 status is one error, a whole reply exactly one response, and a stream one response per complete line. |
| DeepSeek.KeyNotChecked | providers/deepseek.go:41-47 | The answer does not depend on whether the key is empty. |
| DeepSeek.NoModelPosted | providers/deepseek.go:42-44 | With no model option and no request model, an empty model is posted. |
| DeepSeek.AgentDefaultingInvisible | providers/deepseek.go:51-56 | The agent's `MaxTokens` defaulting changes nothing the adapter does. |
| DeepSeek.StatusReported | providers/deepseek.go:80-85 | A status other than 200 is reported in band, once, with status and body. |
| DeepSeek.StreamRoundTrip | providers/deepseek.go:99-109 | A clean stream's contents plus the dropped tail are the body. |
| DeepSeek.AgentAttempts | llm.go:307-331 | With the agent, the adapter is called once and succeeds, whatever the network does: it is never retried. |
| Vault.DeriveKey | vault/vault.go:125-132 | The key is 32 bytes: the password's first bytes, then ASCII '0' after its end. |
| Vault.SameKeyIff | vault/vault.go:125-131 | Two passwords give the same key if and only if they agree on their first 32 bytes once padded with '0'. |
| Vault.PaddingCollides | vault/vault.go:127-130 | Appending '0' to a password of at most 32 bytes, or anything to one of 32 or more, keeps its key. |
| Vault.DeriveKeyIdempotent | vault/vault.go:125-131 | A derived key derives itself. |
| Vault.ShortPasswordsCollide | vault/vault.go:128-130 | "a" and "a0" give the same key. |
| Vault.NewVault | vault/vault.go:40-42 | A new vault is empty and locked. |
| Vault.PromptMaster | vault/vault.go:45-122 | A recent authentication is reused. Setup installs the derived key and succeeds only when the save does. Unlocking installs the key and merges the decrypted secrets, or locks again on failure. A failure never changes the secrets. |
| Vault.AuthCacheWindow | vault/vault.go:49-51 | A successful authentication is reused, whatever the next step, for exactly the following minute. |
| Vault.AuthExpires | vault/vault.go:49-51 | After a minute the prompt runs again. |
| Vault.Set | vault/vault.go:169-175 | After authentication, the secret is written and every other name keeps its value. The save's error is returned, but the write stands. An authentication failure changes nothing. |
| Vault.Get | vault/vault.go:178-187 | After authentication, a present name yields its secret and an absent one "key not found". An authentication failure is returned. |
| Vault.Delete | vault/vault.go:190-196 | After authentication, the name is removed and only the save can fail. An authentication failure changes nothing. |
| Vault.SetThenGet | vault/vault.go:169-187 | A written secret reads back within the authentication window, even if its save failed. Other names read as before. |
| Vault.DeleteThenGet | vault/vault.go:178-196 | A deleted name reads as not found, and deleting it again is not an error. |
| Vault.AuthFailureKeepsSecrets | vault/vault.go:169-196 | A failed authentication leaves every secret as it was, for all three operations. |

## Left out

- HTTP, JSON and SHA-256 are parameters or injective stand-ins. Transport errors, status texts and decoder errors are opaque values.
- Goroutines, the locks and `context` cancellation are left out. Every channel is modelled as fully produced and closed, so a caller that stops reading early, and a concurrent cache or metrics update, are not modelled.
- The 100 ms sleep between attempts and all logging are left out: they affect no state the model tracks. Latencies come from the oracle.
- The background sweeper's ticker is left out; `Cache.Sweep` models one tick of it.
- Float arithmetic is left out. Values are kept only as far as comparison with zero, JSON encoding and identity go.
- Go's `int` and `int64` overflow is not modelled. `RetryCount + 1`, the `MaxTokens` values, the latency sum and `now + CacheTTL` are unbounded integers here.
- Cache.KeyDeterminedByProjection: nil and empty slices are identified. The code encodes a nil `Stop` or `Messages` as `null` and an empty one as `[]`, so it gives the two different cache keys; the model gives them the same key. Strings are sequences of characters, so two Go strings that differ only in invalid UTF-8, which `json.Marshal` replaces by U+FFFD, are different here and share a key in the code.
- OpenAI.Sent: posts the corrected payload of the Findings row, with the streaming decision as its flag. It agrees with the payload as written whenever the defaulted `Stream` is set; when it is not, the code panics at providers/openai.go:81 and the model sends the payload anyway.
- OpenAI.Complete: follows the corrected payload. It answers on a request that leaves `Stream` unset in both the request and the configuration, where the code's goroutine panics.
- Sonnet.Sent: posts the corrected payload of the Findings row. It agrees with the payload as written whenever the defaulted `Stream` is set; when it is not, the code panics at providers/sonnet.go:80.
- Sonnet.Complete: follows the corrected payload. It answers on the unset-`Stream` request on which the code's goroutine panics.
- Claude.Sent: posts the corrected payload of the Findings row. It agrees with the payload as written whenever the defaulted `Stream` is set; when it is not, the code panics at providers/claude.go:78.
- Claude.Complete: follows the corrected payload. It answers on the unset-`Stream` request on which the code's goroutine panics.
- DeepSeek.Sent: posts the corrected payload of the Findings row. It agrees with the payload as written whenever the defaulted `Stream` is set; when it is not, the code panics at providers/deepseek.go:66.
- DeepSeek.Complete: follows the corrected payload. It answers on the unset-`Stream` request on which the code's goroutine panics.
- The lemmas about these members (the `StatusReported`, `StreamRoundTrip`, `AgentAttempts` lemmas and the others) are about the corrected adapters in the same way.
- The Sonnet client (`sonnet.NewClient`, `Generate`) is not part of this model. Its result is a parameter.
- The Claude client in sdk/claude/sdk.go is not used by the Claude adapter and is not modelled.
- The `Name` and `GetConfig` methods are the `Name` constants and the `cfg` field.
- The vault's AES-GCM sealing, nonce generation, base64, file reads and writes and terminal prompts are left out; they are the `AuthStep` and save outcomes. The password confirmation check at vault/vault.go:69 is always false, so it is left out as well.
- Vault.PromptMaster: a decryption that fails after partially decoding the JSON is modelled as leaving the secrets unchanged. `json.Unmarshal` may already have added some entries by then.
- The vault's REST and CLI `main`, and examples/main.go and examples/app.go, are demo code and are left out.
- LlmAgent.Complete: its own contract states only what it may change. Its behaviour is stated by the `AgentProperties` lemmas, which keep the contract small enough to check.

## Findings

| source | as written | input that shows it | evidently intended | confidence | as-written member | corrected member |
|---|---|---|---|---|---|---|
| providers/openai.go:81 | Every adapter's payload dereferences `*req.Stream` after defaulting (also providers/sonnet.go:80, providers/claude.go:78, providers/deepseek.go:66). Neither the request nor the configuration has to set it, so the goroutine panics on a nil pointer. | `NewOpenAI("k")` with no options, and a request with `Stream` nil | send the same streaming decision the adapter uses to read the reply, `req.StreamValue()` | high, not executed | `Adapters.NilStreamCrashes` | `Adapters.IntendedPayload` |
