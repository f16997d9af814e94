/** What a caller of `Agent.Complete` (llm.go) can rely on: when the cache
    answers, when the call is refused, which providers are called in which
    order, how often, with which request, how metrics are kept, and what is
    delivered and cached. */
module AgentProperties {
  import opened Wrappers
  import opened LlmTypes
  import opened Config
  import opened LlmAgent
  import Cache

  // ---------------------------------------------------------------------------
  // Before any provider call
  // ---------------------------------------------------------------------------

  /** A completion the cache does not answer and whose provider and model
      checks pass, so that providers get called. */
  ghost predicate Dispatched(a: Agent, clock: Clock, providerName: string, req: Request) {
    && CachedAnswer(a, clock.lookupAt, req).None?
    && Resolve(a, Route(a, providerName)).Some?
    && !(Resolve(a, Route(a, providerName)).value.defaultModel == "" && req.model == "")
  }

  /** A live cache entry for a non-streaming request answers it at once:
      no provider is called and nothing changes. */
  lemma CacheHitServes(a: Agent, clock: Clock, providerName: string, req: Request, oracle: Oracle)
    requires CachedAnswer(a, clock.lookupAt, req).Some?
    ensures Complete(a, clock, providerName, req, oracle)
      == Completion(a, Returned(Open([Response(CachedAnswer(a, clock.lookupAt, req).value, None)])), [])
  {
  }

  /** An unknown provider name, or a provider without a default model asked
      for no model, is refused before any call and changes nothing. */
  lemma RefusedWithoutCalls(a: Agent, clock: Clock, providerName: string, req: Request, oracle: Oracle)
    requires CachedAnswer(a, clock.lookupAt, req).None?
    requires !Dispatched(a, clock, providerName, req)
    ensures var r := Complete(a, clock, providerName, req, oracle);
      && r.agent == a && r.trace == []
      && (Resolve(a, Route(a, providerName)).None? ==> r.outcome == Failed(ProviderNotRegistered(Route(a, providerName))))
      && (Resolve(a, Route(a, providerName)).Some? ==> r.outcome == Failed(NoModelSpecified))
  {
  }

  /** Otherwise the primary is the routed provider and the request is the
      caller's with `MaxTokens` defaulted for it. */
  lemma CompleteDispatches(a: Agent, clock: Clock, providerName: string, req: Request, oracle: Oracle)
    requires Dispatched(a, clock, providerName, req)
    ensures var cfg := Resolve(a, Route(a, providerName)).value;
      && Complete(a, clock, providerName, req, oracle)
           == Dispatch(a, clock.storeAt, Route(a, providerName), cfg, DefaultMaxTokens(cfg, req), oracle)
      && Defaulted(req, DefaultMaxTokens(cfg, req))
      && DefaultMaxTokens(cfg, req).model == req.model
  {
  }

  // ---------------------------------------------------------------------------
  // Metrics
  // ---------------------------------------------------------------------------

  /** The metrics after `Dispatch` account for exactly its calls. */
  lemma DispatchAccounted(a: Agent, storeAt: int, name: string, cfg: ProviderConfig, req: Request, oracle: Oracle)
    ensures var r := Dispatch(a, storeAt, name, cfg, req, oracle);
      Accounted(a.metrics, r.agent.metrics, r.trace)
  {
    var r := Dispatch(a, storeAt, name, cfg, req, oracle);
    var p := TryProvider(a.metrics, name, cfg, req, oracle, 0);
    TryProviderAccounted(a.metrics, name, cfg, req, oracle, 0);
    if p.result.Failure? && |a.fallbackProviders| > 0 {
      var fb := Fallback(a, name, a.fallbackProviders, p.metrics, req, oracle, |p.trace|, p.result.error);
      FallbackAccounted(a, name, a.fallbackProviders, p.metrics, req, oracle, |p.trace|, p.result.error);
      AccountedTrans(a.metrics, p.metrics, fb.metrics, p.trace, fb.trace);
      assert r.agent.metrics == fb.metrics && r.trace == p.trace + fb.trace;
    } else {
      assert r.agent.metrics == p.metrics && r.trace == p.trace;
    }
  }

  /** Every `Complete` records each of its provider calls, and nothing else,
      in the metrics of the provider it went to. */
  lemma CompleteAccounted(a: Agent, clock: Clock, providerName: string, req: Request, oracle: Oracle)
    ensures var r := Complete(a, clock, providerName, req, oracle);
      Accounted(a.metrics, r.agent.metrics, r.trace)
  {
    if Dispatched(a, clock, providerName, req) {
      var cfg := Resolve(a, Route(a, providerName)).value;
      DispatchAccounted(a, clock.storeAt, Route(a, providerName), cfg, DefaultMaxTokens(cfg, req), oracle);
    } else {
      AccountedNothing(a.metrics);
    }
  }

  // ---------------------------------------------------------------------------
  // Which providers are called
  // ---------------------------------------------------------------------------

  /** A name a finished fallback run called is a viable candidate: in the
      fallback list, not the primary, resolvable and with a model. */
  lemma FallbackCalledViable(a: Agent, primary: string, names: seq<string>, ms: map<string, Metrics>,
                             req: Request, oracle: Oracle, k: nat, lastErr: Error, n: string)
    requires CountCalls(Fallback(a, primary, names, ms, req, oracle, k, lastErr).trace, n) > 0
    ensures n in names && Viable(a, primary, req.model, n)
  {
    var fb := Fallback(a, primary, names, ms, req, oracle, k, lastErr);
    var cands := Candidates(a, primary, req.model, names);
    FallbackCallsTried(a, primary, names, ms, req, oracle, k, lastErr);
    FallbackOrder(a, primary, names, ms, req, oracle, k, lastErr);
    var j :| 0 <= j < |fb.tried| && fb.tried[j] == n;
    assert cands[j] == n;
  }

  /** The two parts of a dispatch's trace: the primary's attempts, then the
      fallback loop's calls (none when the primary succeeded or there is no
      fallback list); the fallback part never calls the primary. */
  lemma DispatchSplit(a: Agent, storeAt: int, name: string, cfg: ProviderConfig, req: Request, oracle: Oracle)
      returns (p: Tried, fb: FallbackRun)
    ensures var r := Dispatch(a, storeAt, name, cfg, req, oracle);
      && p == TryProvider(a.metrics, name, cfg, req, oracle, 0)
      && (p.result.Failure? && |a.fallbackProviders| > 0 ==>
            fb == Fallback(a, name, a.fallbackProviders, p.metrics, req, oracle, |p.trace|, p.result.error))
      && (p.result.Success? || |a.fallbackProviders| == 0 ==> fb.trace == [])
      && r.trace == p.trace + fb.trace
      && CountCalls(r.trace, name) == |p.trace|
  {
    p := TryProvider(a.metrics, name, cfg, req, oracle, 0);
    if p.result.Failure? && |a.fallbackProviders| > 0 {
      fb := Fallback(a, name, a.fallbackProviders, p.metrics, req, oracle, |p.trace|, p.result.error);
      if CountCalls(fb.trace, name) > 0 {
        FallbackCalledViable(a, name, a.fallbackProviders, p.metrics, req, oracle, |p.trace|, p.result.error, name);
      }
    } else {
      fb := FallbackRun(p.metrics, req, p.result, [], []);
      assert p.trace + fb.trace == p.trace;
    }
    CountCallsAppend(p.trace, fb.trace, name);
    CountCallsUniform(p.trace, name, name);
  }

  /** The primary is called first, with the defaulted request, at most
      `AttemptBudget` times and never again by the fallback loop; every
      attempt but the last failed, and the fallback loop runs only after
      all of them failed and only when a fallback list is registered. */
  lemma PrimaryAttempts(a: Agent, storeAt: int, name: string, cfg: ProviderConfig, req: Request, oracle: Oracle)
    ensures var r := Dispatch(a, storeAt, name, cfg, req, oracle);
      var n := CountCalls(r.trace, name);
      && 1 <= n <= AttemptBudget(cfg) && n <= |r.trace|
      && (forall i :: 0 <= i < n ==> r.trace[i] == Call(name, req))
      && (forall i :: 0 <= i < n - 1 ==> CallResult(oracle, r.trace, 0, i).Failure?)
      && (n < |r.trace| ==>
            && |a.fallbackProviders| > 0 && n == AttemptBudget(cfg)
            && forall i :: 0 <= i < n ==> CallResult(oracle, r.trace, 0, i).Failure?)
  {
    var r := Dispatch(a, storeAt, name, cfg, req, oracle);
    var p, fb := DispatchSplit(a, storeAt, name, cfg, req, oracle);
    TryProviderStopsAtFirstSuccess(a.metrics, name, cfg, req, oracle, 0);
    forall i | 0 <= i < |p.trace|
      ensures r.trace[i] == p.trace[i]
      ensures CallResult(oracle, r.trace, 0, i) == CallResult(oracle, p.trace, 0, i)
    {
    }
  }

  /** Every call after the primary's goes to a name of the fallback list
      that is not the primary, is registered and has a model; every call
      carries the dispatched request with at most `MaxTokens` defaulted. */
  lemma FallbackCalls(a: Agent, storeAt: int, name: string, cfg: ProviderConfig, req: Request, oracle: Oracle)
    ensures var r := Dispatch(a, storeAt, name, cfg, req, oracle);
      && (forall i :: CountCalls(r.trace, name) <= i < |r.trace| ==>
            r.trace[i].provider in a.fallbackProviders && Viable(a, name, req.model, r.trace[i].provider))
      && (forall i :: 0 <= i < |r.trace| ==> Defaulted(req, r.trace[i].req))
  {
    var r := Dispatch(a, storeAt, name, cfg, req, oracle);
    var p, fb := DispatchSplit(a, storeAt, name, cfg, req, oracle);
    if fb.trace != [] {
      FallbackOnlyDefaults(a, name, a.fallbackProviders, p.metrics, req, oracle, |p.trace|, p.result.error);
    }
    forall i | 0 <= i < |r.trace|
      ensures i >= |p.trace| ==>
        r.trace[i].provider in a.fallbackProviders && Viable(a, name, req.model, r.trace[i].provider)
      ensures Defaulted(req, r.trace[i].req)
    {
      if i >= |p.trace| {
        var j := i - |p.trace|;
        assert r.trace[i] == fb.trace[j];
        CountCallsPositive(fb.trace, j);
        FallbackCalledViable(a, name, a.fallbackProviders, p.metrics, req, oracle, |p.trace|, p.result.error,
                             fb.trace[j].provider);
      } else {
        assert r.trace[i] == p.trace[i];
      }
    }
  }

  // ---------------------------------------------------------------------------
  // What is delivered and cached
  // ---------------------------------------------------------------------------

  /** How a dispatch ends, in terms of the last provider call and the
      request it carried: a channel is delivered through the `CACHE_STORE`
      step; a failure with no fallback list delivers a nil channel; a
      failure with a fallback list is "all providers failed" carrying the
      last error, with only the metrics changed. */
  lemma Delivered(a: Agent, storeAt: int, name: string, cfg: ProviderConfig, req: Request, oracle: Oracle)
    ensures var r := Dispatch(a, storeAt, name, cfg, req, oracle);
      var last := LastResult(oracle, r.trace, 0);
      var lastReq := r.trace[|r.trace| - 1].req;
      var a1 := a.(metrics := r.agent.metrics);
      && (last.Success? ==> (r.agent, r.outcome) == Deliver(a1, storeAt, lastReq, Open(last.value)))
      && (last.Failure? && |a.fallbackProviders| == 0 ==> (r.agent, r.outcome) == Deliver(a1, storeAt, lastReq, Nil))
      && (last.Failure? && |a.fallbackProviders| > 0 ==>
            r.agent == a1 && r.outcome == Failed(AllProvidersFailed(last.error)))
  {
    var r := Dispatch(a, storeAt, name, cfg, req, oracle);
    var p, fb := DispatchSplit(a, storeAt, name, cfg, req, oracle);
    if p.result.Success? || |a.fallbackProviders| == 0 {
      assert r.trace == p.trace;
    } else {
      FallbackResult(a, name, a.fallbackProviders, p.metrics, req, oracle, |p.trace|, p.result.error);
      if fb.trace == [] {
        assert r.trace == p.trace;
      } else {
        LastResultAppend(oracle, p.trace, fb.trace, 0);
        assert r.trace[|r.trace| - 1] == fb.trace[|fb.trace| - 1];
      }
    }
  }

  /** `Complete` looks the cache up under the caller's request but writes
      under the request as defaulted. So a request with `MaxTokens` 0 sent
      to a provider without a default is never answered from the cache by
      the entry its own completion writes: that entry's key has `MaxTokens`
      200. */
  lemma DefaultedRequestMissesOwnEntry(a: Agent, clock: Clock, providerName: string, req: Request,
                                       oracle: Oracle, t: int)
    requires Dispatched(a, clock, providerName, req)
    requires req.maxTokens == 0 && Resolve(a, Route(a, providerName)).value.defaultMaxTokens == 0
    ensures CachedAnswer(Complete(a, clock, providerName, req, oracle).agent, t, req) == CachedAnswer(a, t, req)
  {
    var name := Route(a, providerName);
    var cfg := Resolve(a, name).value;
    var req1 := DefaultMaxTokens(cfg, req);
    var r := Complete(a, clock, providerName, req, oracle);
    CompleteDispatches(a, clock, providerName, req, oracle);
    Delivered(a, clock.storeAt, name, cfg, req1, oracle);
    FallbackCalls(a, clock.storeAt, name, cfg, req1, oracle);
    var lastReq := r.trace[|r.trace| - 1].req;
    assert Defaulted(req1, lastReq);
    assert lastReq.maxTokens == 200;
    if r.agent.cache != a.cache && !StreamValue(req) && Cache.CacheKey(req).Some? {
      var k' := Cache.CacheKey(lastReq).value;
      assert k' != Cache.CacheKey(req).value;
    }
  }

  /** With `Stream` unset, `MaxTokens` 0 and a provider without a default,
      the cache is consulted as for a non-streaming request, but `MaxTokens`
      becomes 200 before delivery and the request is then streaming: the
      provider's channel is returned untouched and nothing is cached. */
  lemma UnsetStreamBecomesStreaming(a: Agent, clock: Clock, providerName: string, req: Request, oracle: Oracle)
    requires Dispatched(a, clock, providerName, req)
    requires req.stream.None? && req.maxTokens == 0
    requires Resolve(a, Route(a, providerName)).value.defaultMaxTokens == 0
    ensures !StreamValue(req)
    ensures var r := Complete(a, clock, providerName, req, oracle);
      var last := LastResult(oracle, r.trace, 0);
      && r.agent.cache == a.cache
      && (last.Success? ==> r.outcome == Returned(Open(last.value)))
      && (last.Failure? && |a.fallbackProviders| == 0 ==> r.outcome == Returned(Nil))
  {
    var name := Route(a, providerName);
    var cfg := Resolve(a, name).value;
    var req1 := DefaultMaxTokens(cfg, req);
    var r := Complete(a, clock, providerName, req, oracle);
    CompleteDispatches(a, clock, providerName, req, oracle);
    Delivered(a, clock.storeAt, name, cfg, req1, oracle);
    FallbackCalls(a, clock.storeAt, name, cfg, req1, oracle);
    var lastReq := r.trace[|r.trace| - 1].req;
    assert Defaulted(req1, lastReq);
    assert StreamValue(lastReq);
  }

  /** The attempt budget is per `tryProvider` call, not per provider: a
      name listed twice in the fallback list is tried twice. Here a
      provider without retries is called twice after the primary failed. */
  lemma DuplicateFallbackTriedTwice(req: Request)
    ensures var cfg := ZeroConfig.(defaultModel := "m");
      var a := NewAgent().(defaultProvider := "p", fallbackProviders := ["f", "f"],
                           userProviders := map["p" := cfg, "f" := cfg]);
      var down: Oracle := (_, _, _) => Attempt(Failure(Backend("down")), 0);
      var r := Complete(a, Clock(0, 0), "", req, down);
      && AttemptBudget(cfg) == 1
      && |r.trace| == 3 && r.trace[1].provider == "f" && r.trace[2].provider == "f"
      && r.outcome == Failed(AllProvidersFailed(Backend("down")))
  {
    var cfg := ZeroConfig.(defaultModel := "m");
    var a := NewAgent().(defaultProvider := "p", fallbackProviders := ["f", "f"],
                         userProviders := map["p" := cfg, "f" := cfg]);
    var down: Oracle := (_, _, _) => Attempt(Failure(Backend("down")), 0);
    var req1 := DefaultMaxTokens(cfg, req);
    var p := TryProvider(a.metrics, "p", cfg, req1, down, 0);
    assert |p.trace| == 1;
    var t1 := TryProvider(p.metrics, "f", cfg, req1, down, 1);
    assert |t1.trace| == 1;
    var t2 := TryProvider(t1.metrics, "f", cfg, req1, down, 2);
    assert |t2.trace| == 1;
    var fb := Fallback(a, "p", ["f", "f"], p.metrics, req1, down, 1, Backend("down"));
    assert ["f", "f"][1..] == ["f"];
    assert fb.trace == t1.trace + t2.trace;
  }
}
