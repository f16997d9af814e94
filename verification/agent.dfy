/** The request orchestrator of llm.go: provider registries, default
    selection, per-provider metrics, the retry loop (`tryProvider`), the
    fallback chain and `Complete` with its cache lookup and `CACHE_STORE`
    step. Providers are oracles that script each call's outcome; channels
    are finite sequences. */
module LlmAgent {
  import opened Wrappers
  import opened LlmTypes
  import opened Config
  import Cache

  // ---------------------------------------------------------------------------
  // State
  // ---------------------------------------------------------------------------

  /** A provider as the agent sees it: `Name()` and `GetConfig()`. */
  datatype Provider = Provider(name: string, cfg: ProviderConfig)

  /** `ProviderMetrics`; latencies are nanoseconds. */
  datatype Metrics = Metrics(successCount: nat, failureCount: nat, totalLatency: nat)

  const NoMetrics := Metrics(0, 0, 0)

  /** `Agent`. A provider is only ever registered under its own `Name()`,
      so a registry maps that name to the provider's configuration. */
  datatype Agent = Agent(
    defaultProvider: string,
    fallbackProviders: seq<string>,
    userProviders: map<string, ProviderConfig>,
    systemProviders: map<string, ProviderConfig>,
    cache: Cache.Store,
    cacheTTL: int,
    metrics: map<string, Metrics>)

  /** `NewAgent`: empty registries, cache and metrics; five-minute TTL.
      The sweeping goroutine it starts is `Cache.Sweep` applied once a minute. */
  function NewAgent(): (a: Agent)
    ensures forall n :: Resolve(a, n).None?
    ensures a.cache == map[] && a.metrics == map[] && a.fallbackProviders == []
    ensures a.cacheTTL == 5 * Minute
  {
    Agent("", [], map[], map[], map[], Cache.DefaultTTL, map[])
  }

  // ---------------------------------------------------------------------------
  // Registries and default selection
  // ---------------------------------------------------------------------------

  /** The two-tier lookup used by `SetDefault`, `Complete` and the fallback
      loop: the user registry shadows the system one. */
  function Resolve(a: Agent, name: string): (r: Option<ProviderConfig>)
    ensures r.Some? <==> name in a.userProviders || name in a.systemProviders
    ensures name in a.userProviders ==> r == Some(a.userProviders[name])
    ensures name !in a.userProviders && name in a.systemProviders ==> r == Some(a.systemProviders[name])
  {
    if name in a.userProviders then Some(a.userProviders[name])
    else if name in a.systemProviders then Some(a.systemProviders[name])
    else None
  }

  /** `RegisterProvidersFromUser`: the provider now answers to its name,
      whatever was registered before; every other name resolves as before. */
  function RegisterProvidersFromUser(a: Agent, p: Provider): (r: Agent)
    ensures Resolve(r, p.name) == Some(p.cfg)
    ensures forall n :: n != p.name ==> Resolve(r, n) == Resolve(a, n)
    ensures r == a.(userProviders := r.userProviders)
  {
    a.(userProviders := a.userProviders[p.name := p.cfg])
  }

  /** `RegisterProvidersFromSystem`: the provider answers to its name only
      when no user provider of that name shadows it. */
  function RegisterProvidersFromSystem(a: Agent, p: Provider): (r: Agent)
    ensures p.name in a.userProviders ==> Resolve(r, p.name) == Resolve(a, p.name)
    ensures p.name !in a.userProviders ==> Resolve(r, p.name) == Some(p.cfg)
    ensures forall n :: n != p.name ==> Resolve(r, n) == Resolve(a, n)
    ensures r == a.(systemProviders := r.systemProviders)
  {
    a.(systemProviders := a.systemProviders[p.name := p.cfg])
  }

  /** `RegisterFallbackProviders`: replaces the fallback list. */
  function RegisterFallbackProviders(a: Agent, names: seq<string>): (r: Agent)
    ensures r.fallbackProviders == names
    ensures r == a.(fallbackProviders := names)
  {
    a.(fallbackProviders := names)
  }

  /** `SetDefault`: accepts exactly the names one of the registries knows;
      otherwise the agent is unchanged and the error is returned. */
  function SetDefault(a: Agent, name: string): (r: (Agent, Option<Error>))
    ensures r.1.None? <==> Resolve(a, name).Some?
    ensures r.1.None? ==> r.0 == a.(defaultProvider := name)
    ensures r.1.Some? ==> r.0 == a && r.1 == Some(DefaultNotRegistered)
  {
    if name !in a.userProviders && name !in a.systemProviders then (a, Some(DefaultNotRegistered))
    else (a.(defaultProvider := name), None)
  }

  /** `ListProviders`: every resolvable name exactly once, user names first.
      Go's map iteration order is unspecified, so the order within each tier
      is an arbitrary choice here too. */
  method ListProviders(a: Agent) returns (list: seq<string>)
    ensures forall n :: n in list <==> Resolve(a, n).Some?
    ensures forall i, j :: 0 <= i < j < |list| ==> list[i] != list[j]
    ensures forall i, j :: 0 <= i < j < |list| && list[j] in a.userProviders ==> list[i] in a.userProviders
  {
    list := [];
    var users := a.userProviders.Keys;
    while users != {}
      invariant users <= a.userProviders.Keys
      invariant forall n :: n in list <==> n in a.userProviders && n !in users
      invariant forall i, j :: 0 <= i < j < |list| ==> list[i] != list[j]
      decreases users
    {
      var n :| n in users;
      list := list + [n];
      users := users - {n};
    }
    var systems := a.systemProviders.Keys;
    while systems != {}
      invariant systems <= a.systemProviders.Keys
      invariant forall n :: n in list <==> n in a.userProviders || (n in a.systemProviders && n !in systems)
      invariant forall i, j :: 0 <= i < j < |list| ==> list[i] != list[j]
      invariant forall i, j :: 0 <= i < j < |list| && list[j] in a.userProviders ==> list[i] in a.userProviders
      decreases systems
    {
      var n :| n in systems;
      if n !in a.userProviders {
        list := list + [n];
      }
      systems := systems - {n};
    }
  }

  // ---------------------------------------------------------------------------
  // Provider calls and metrics
  // ---------------------------------------------------------------------------

  /** What one `current.Complete(ctx, req)` call yields: a channel (here its
      finite contents) or an error, and the latency `time.Since(start)`
      records for it. */
  datatype Attempt = Attempt(result: Result<seq<Response>, Error>, latency: nat)

  /** The providers' behaviour: the outcome of the `k`-th provider call of
      one `Complete`, made to the provider `name` with request `req`. */
  type Oracle = (string, Request, nat) -> Attempt

  /** One provider call, as the trace of a `Complete` records it. */
  datatype Call = Call(provider: string, req: Request)

  /** The outcome of call `i` of a trace whose first call has global index `k`. */
  function CallResult(oracle: Oracle, trace: seq<Call>, k: nat, i: nat): Result<seq<Response>, Error>
    requires i < |trace|
  {
    oracle(trace[i].provider, trace[i].req, k + i).result
  }

  function LastResult(oracle: Oracle, trace: seq<Call>, k: nat): Result<seq<Response>, Error>
    requires |trace| > 0
  {
    CallResult(oracle, trace, k, |trace| - 1)
  }

  /** The last call of a concatenation is the last call of its second part. */
  lemma LastResultAppend(oracle: Oracle, t1: seq<Call>, t2: seq<Call>, k: nat)
    requires |t2| > 0
    ensures LastResult(oracle, t1 + t2, k) == LastResult(oracle, t2, k + |t1|)
  {
    assert (t1 + t2)[|t1 + t2| - 1] == t2[|t2| - 1];
  }

  /** `tryProvider`'s attempt budget: `RetryCount + 1` when positive, else one. */
  function AttemptBudget(cfg: ProviderConfig): (n: nat)
    ensures n >= 1
    ensures cfg.retryCount > 0 ==> n == cfg.retryCount + 1
    ensures cfg.retryCount <= 0 ==> n == 1
  {
    if cfg.retryCount > 0 then cfg.retryCount + 1 else 1
  }

  function MetricsOf(ms: map<string, Metrics>, name: string): Metrics {
    if name in ms then ms[name] else NoMetrics
  }

  /** Attempts recorded for `name`: successes plus failures. */
  function Attempted(ms: map<string, Metrics>, name: string): nat {
    MetricsOf(ms, name).successCount + MetricsOf(ms, name).failureCount
  }

  /** How many calls of a trace went to `name`. */
  function CountCalls(trace: seq<Call>, name: string): nat
    decreases |trace|
  {
    if |trace| == 0 then 0
    else (if trace[0].provider == name then 1 else 0) + CountCalls(trace[1..], name)
  }

  lemma {:induction false} CountCallsAppend(t1: seq<Call>, t2: seq<Call>, name: string)
    ensures CountCalls(t1 + t2, name) == CountCalls(t1, name) + CountCalls(t2, name)
    decreases |t1|
  {
    if |t1| > 0 {
      assert (t1 + t2)[1..] == t1[1..] + t2;
      CountCallsAppend(t1[1..], t2, name);
    } else {
      assert t1 + t2 == t2;
    }
  }

  /** Every provider a trace calls is counted for. */
  lemma {:induction false} CountCallsPositive(trace: seq<Call>, i: nat)
    requires i < |trace|
    ensures CountCalls(trace, trace[i].provider) > 0
    decreases i
  {
    if i > 0 {
      CountCallsPositive(trace[1..], i - 1);
    }
  }

  /** A trace whose calls all go to one provider counts only for it. */
  lemma {:induction false} CountCallsUniform(trace: seq<Call>, provider: string, name: string)
    requires forall i :: 0 <= i < |trace| ==> trace[i].provider == provider
    ensures CountCalls(trace, name) == if name == provider then |trace| else 0
    decreases |trace|
  {
    if |trace| > 0 {
      CountCallsUniform(trace[1..], provider, name);
    }
  }

  /** `ms'` is `ms` after the calls of `trace`, as far as provider `n` is
      concerned: each call to `n` added exactly one success or failure, an
      entry exists once `n` was called, counters and latency never decreased,
      and an entry `n` not called is untouched. */
  ghost predicate AccountedFor(ms: map<string, Metrics>, ms': map<string, Metrics>, trace: seq<Call>, n: string) {
    && (n in ms' <==> n in ms || CountCalls(trace, n) > 0)
    && Attempted(ms', n) == Attempted(ms, n) + CountCalls(trace, n)
    && (n in ms ==>
          && ms[n].successCount <= ms'[n].successCount
          && ms[n].failureCount <= ms'[n].failureCount
          && ms[n].totalLatency <= ms'[n].totalLatency)
    && (n in ms && CountCalls(trace, n) == 0 ==> ms'[n] == ms[n])
  }

  /** `ms'` is `ms` after the calls of `trace`, for every provider. */
  ghost predicate Accounted(ms: map<string, Metrics>, ms': map<string, Metrics>, trace: seq<Call>) {
    forall n :: AccountedFor(ms, ms', trace, n)
  }

  lemma AccountedNothing(ms: map<string, Metrics>)
    ensures Accounted(ms, ms, [])
  {
  }

  lemma AccountedTrans(ms1: map<string, Metrics>, ms2: map<string, Metrics>, ms3: map<string, Metrics>,
                       t1: seq<Call>, t2: seq<Call>)
    requires Accounted(ms1, ms2, t1) && Accounted(ms2, ms3, t2)
    ensures Accounted(ms1, ms3, t1 + t2)
  {
    forall n
      ensures AccountedFor(ms1, ms3, t1 + t2, n)
    {
      CountCallsAppend(t1, t2, n);
      assert AccountedFor(ms1, ms2, t1, n) && AccountedFor(ms2, ms3, t2, n);
    }
  }

  /** The latencies of the calls `k, k+1, ..., k+count-1` to one provider. */
  function LatencySum(oracle: Oracle, name: string, req: Request, k: nat, count: nat): nat
    decreases count
  {
    if count == 0 then 0 else oracle(name, req, k).latency + LatencySum(oracle, name, req, k + 1, count - 1)
  }

  /** One provider's metrics after a run of the retry loop. */
  datatype Run = Run(metrics: Metrics, result: Result<seq<Response>, Error>, calls: nat)

  /** The body of `tryProvider`'s loop from the attempt with global call
      index `k` on, with `budget` attempts left: every attempt adds its
      latency and one success or failure, a success ends the loop, and a
      failure of the last attempt is the loop's error. */
  function Retry(m: Metrics, name: string, req: Request, oracle: Oracle, k: nat, budget: nat): (r: Run)
    requires budget >= 1
    ensures 1 <= r.calls <= budget
    ensures r.metrics.successCount + r.metrics.failureCount == m.successCount + m.failureCount + r.calls
    ensures r.metrics.totalLatency == m.totalLatency + LatencySum(oracle, name, req, k, r.calls)
    ensures r.metrics.successCount >= m.successCount && r.metrics.failureCount >= m.failureCount
    ensures r.result == oracle(name, req, k + r.calls - 1).result
    ensures r.result.Failure? ==> r.calls == budget
    decreases budget
  {
    var at := oracle(name, req, k);
    var m1 := m.(totalLatency := m.totalLatency + at.latency);
    if at.result.Success? then
      Run(m1.(successCount := m1.successCount + 1), at.result, 1)
    else
      var m2 := m1.(failureCount := m1.failureCount + 1);
      if budget == 1 then Run(m2, at.result, 1)
      else
        var rest := Retry(m2, name, req, oracle, k + 1, budget - 1);
        Run(rest.metrics, rest.result, rest.calls + 1)
  }

  /** The `count` calls to one provider from global index `k` on all failed. */
  ghost predicate FailedFrom(oracle: Oracle, name: string, req: Request, k: nat, count: nat)
    decreases count
  {
    count == 0 || (oracle(name, req, k).result.Failure? && FailedFrom(oracle, name, req, k + 1, count - 1))
  }

  lemma {:induction false} FailedFromEach(oracle: Oracle, name: string, req: Request, k: nat, count: nat, j: nat)
    requires FailedFrom(oracle, name, req, k, count)
    requires k <= j < k + count
    ensures oracle(name, req, j).result.Failure?
    decreases count
  {
    if j > k {
      FailedFromEach(oracle, name, req, k + 1, count - 1, j);
    }
  }

  /** The retry loop stops at the first success: every call before the
      last one failed. */
  lemma {:induction false} RetryStopsAtFirstSuccess(m: Metrics, name: string, req: Request, oracle: Oracle,
                                                    k: nat, budget: nat)
    requires budget >= 1
    ensures FailedFrom(oracle, name, req, k, Retry(m, name, req, oracle, k, budget).calls - 1)
    decreases budget
  {
    var r := Retry(m, name, req, oracle, k, budget);
    var at := oracle(name, req, k);
    var m1 := m.(totalLatency := m.totalLatency + at.latency);
    if at.result.Failure? && budget > 1 {
      var m2 := m1.(failureCount := m1.failureCount + 1);
      var rest := Retry(m2, name, req, oracle, k + 1, budget - 1);
      assert r.calls == rest.calls + 1;
      RetryStopsAtFirstSuccess(m2, name, req, oracle, k + 1, budget - 1);
    } else {
      assert r.calls == 1;
    }
  }

  /** What one `tryProvider` call produced: the updated metrics map, the
      channel or the last error, and the calls made. */
  datatype Tried = Tried(metrics: map<string, Metrics>, result: Result<seq<Response>, Error>, trace: seq<Call>)

  /** `n` calls to one provider, all with the same request. */
  function Repeat(name: string, req: Request, n: nat): (t: seq<Call>)
    ensures |t| == n
    ensures forall i :: 0 <= i < n ==> t[i] == Call(name, req)
    decreases n
  {
    if n == 0 then [] else [Call(name, req)] + Repeat(name, req, n - 1)
  }

  /** `tryProvider(current)`, starting at global call index `k`: between one
      and `AttemptBudget` calls, all to `current` with the same request; its
      result is the last call's, and a failure means the budget is spent. */
  function TryProvider(ms: map<string, Metrics>, name: string, cfg: ProviderConfig, req: Request,
                       oracle: Oracle, k: nat): (r: Tried)
    ensures 1 <= |r.trace| <= AttemptBudget(cfg)
    ensures r.trace == Repeat(name, req, |r.trace|)
    ensures r.result == LastResult(oracle, r.trace, k)
    ensures r.result.Failure? ==> |r.trace| == AttemptBudget(cfg)
  {
    var run := Retry(MetricsOf(ms, name), name, req, oracle, k, AttemptBudget(cfg));
    Tried(ms[name := run.metrics], run.result, Repeat(name, req, run.calls))
  }

  /** Each `tryProvider` attempt adds one success or failure and its latency
      to `current`'s metrics, creating them on first use. */
  lemma TryProviderAccounted(ms: map<string, Metrics>, name: string, cfg: ProviderConfig, req: Request,
                             oracle: Oracle, k: nat)
    ensures var r := TryProvider(ms, name, cfg, req, oracle, k);
      Accounted(ms, r.metrics, r.trace)
  {
    var r := TryProvider(ms, name, cfg, req, oracle, k);
    forall n
      ensures AccountedFor(ms, r.metrics, r.trace, n)
    {
      CountCallsUniform(r.trace, name, n);
    }
  }

  /** `tryProvider` stops at the first success: every call but the last failed. */
  lemma TryProviderStopsAtFirstSuccess(ms: map<string, Metrics>, name: string, cfg: ProviderConfig, req: Request,
                                       oracle: Oracle, k: nat)
    ensures var r := TryProvider(ms, name, cfg, req, oracle, k);
      forall i :: 0 <= i < |r.trace| - 1 ==> CallResult(oracle, r.trace, k, i).Failure?
  {
    var r := TryProvider(ms, name, cfg, req, oracle, k);
    RetryStopsAtFirstSuccess(MetricsOf(ms, name), name, req, oracle, k, AttemptBudget(cfg));
    forall i | 0 <= i < |r.trace| - 1
      ensures CallResult(oracle, r.trace, k, i).Failure?
    {
      FailedFromEach(oracle, name, req, k, |r.trace| - 1, k + i);
    }
  }

  // ---------------------------------------------------------------------------
  // Fallback chain
  // ---------------------------------------------------------------------------

  /** A fallback name the loop actually tries: not the primary, known to a
      registry, and with a model to send (the provider's default or the
      request's). */
  predicate Viable(a: Agent, primary: string, model: string, n: string) {
    && n != primary
    && Resolve(a, n).Some?
    && !(Resolve(a, n).value.defaultModel == "" && model == "")
  }

  /** The fallback names, in list order, that the loop would try if every
      one of them failed. */
  function Candidates(a: Agent, primary: string, model: string, names: seq<string>): (cs: seq<string>)
    ensures forall i :: 0 <= i < |cs| ==> Viable(a, primary, model, cs[i]) && cs[i] in names
    decreases |names|
  {
    if |names| == 0 then []
    else if Viable(a, primary, model, names[0]) then [names[0]] + Candidates(a, primary, model, names[1..])
    else Candidates(a, primary, model, names[1..])
  }

  /** `req'` is `req`, possibly with `MaxTokens` raised from 0 to 200: the
      only change the agent ever makes to a request. */
  predicate Defaulted(req: Request, req': Request) {
    req' == req || (req.maxTokens == 0 && req' == req.(maxTokens := 200))
  }

  /** The state the fallback loop threads, and what it ends with. `tried`
      lists the candidates attempted, in order. */
  datatype FallbackRun = FallbackRun(
    metrics: map<string, Metrics>,
    req: Request,
    result: Result<seq<Response>, Error>,
    trace: seq<Call>,
    tried: seq<string>)

  /** The `for _, fbName := range a.FallbackProviders` loop over the names
      still to visit, with the request as the loop has defaulted it so far
      and the most recent error. Its properties are the lemmas below. */
  function Fallback(a: Agent, primary: string, names: seq<string>, ms: map<string, Metrics>,
                    req: Request, oracle: Oracle, k: nat, lastErr: Error): (r: FallbackRun)
    decreases |names|
  {
    if |names| == 0 then
      FallbackRun(ms, req, Failure(AllProvidersFailed(lastErr)), [], [])
    else
      var fbName := names[0];
      if !Viable(a, primary, req.model, fbName) then
        Fallback(a, primary, names[1..], ms, req, oracle, k, lastErr)
      else
        var fbCfg := Resolve(a, fbName).value;
        var req' := DefaultMaxTokens(fbCfg, req);
        var t := TryProvider(ms, fbName, fbCfg, req', oracle, k);
        if t.result.Success? then
          FallbackRun(t.metrics, req', t.result, t.trace, [fbName])
        else
          var rest := Fallback(a, primary, names[1..], t.metrics, req', oracle, k + |t.trace|, t.result.error);
          FallbackRun(rest.metrics, rest.req, rest.result, t.trace + rest.trace, [fbName] + rest.tried)
  }

  /** The `MaxTokens` defaulting `Complete` applies for the primary and
      again for each fallback candidate: 200 when neither the provider's
      configuration nor the request sets a value. */
  function DefaultMaxTokens(cfg: ProviderConfig, req: Request): (r: Request)
    ensures Defaulted(req, r)
    ensures req.maxTokens != 0 || cfg.defaultMaxTokens != 0 ==> r == req
    ensures r.maxTokens != 0 || cfg.defaultMaxTokens != 0
  {
    if cfg.defaultMaxTokens == 0 && req.maxTokens == 0 then req.(maxTokens := 200) else req
  }

  lemma DefaultedTrans(r1: Request, r2: Request, r3: Request)
    requires Defaulted(r1, r2) && Defaulted(r2, r3)
    ensures Defaulted(r1, r3)
  {
  }

  /** The fallback loop records each call in the metrics of the provider it
      went to, and touches nothing else. */
  lemma {:induction false} FallbackAccounted(a: Agent, primary: string, names: seq<string>, ms: map<string, Metrics>,
                                             req: Request, oracle: Oracle, k: nat, lastErr: Error)
    ensures var r := Fallback(a, primary, names, ms, req, oracle, k, lastErr);
      Accounted(ms, r.metrics, r.trace)
    decreases |names|
  {
    var r := Fallback(a, primary, names, ms, req, oracle, k, lastErr);
    if |names| == 0 {
      AccountedNothing(ms);
    } else if !Viable(a, primary, req.model, names[0]) {
      assert r == Fallback(a, primary, names[1..], ms, req, oracle, k, lastErr);
      FallbackAccounted(a, primary, names[1..], ms, req, oracle, k, lastErr);
    } else {
      var fbCfg := Resolve(a, names[0]).value;
      var req' := DefaultMaxTokens(fbCfg, req);
      var t := TryProvider(ms, names[0], fbCfg, req', oracle, k);
      if t.result.Failure? {
        var rest := Fallback(a, primary, names[1..], t.metrics, req', oracle, k + |t.trace|, t.result.error);
        assert r.metrics == rest.metrics && r.trace == t.trace + rest.trace;
        TryProviderAccounted(ms, names[0], fbCfg, req', oracle, k);
        FallbackAccounted(a, primary, names[1..], t.metrics, req', oracle, k + |t.trace|, t.result.error);
        AccountedTrans(ms, t.metrics, rest.metrics, t.trace, rest.trace);
      } else {
        assert r.metrics == t.metrics && r.trace == t.trace;
        TryProviderAccounted(ms, names[0], fbCfg, req', oracle, k);
      }
    }
  }

  /** What a finished fallback run promises about the candidates: they are
      tried in list order and only viable ones are tried (the primary,
      unknown names and names without a model are skipped); when the loop
      fails every viable candidate was tried. */
  ghost predicate TriedInOrder(cands: seq<string>, r: FallbackRun) {
    && r.tried <= cands
    && (r.result.Failure? ==> r.tried == cands)
    && (r.result.Success? ==> |r.tried| > 0)
  }

  /** The fallback loop tries the candidates as `TriedInOrder` states. */
  lemma {:induction false} FallbackOrder(a: Agent, primary: string, names: seq<string>, ms: map<string, Metrics>,
                                         req: Request, oracle: Oracle, k: nat, lastErr: Error)
    ensures TriedInOrder(Candidates(a, primary, req.model, names), Fallback(a, primary, names, ms, req, oracle, k, lastErr))
    decreases |names|
  {
    var r := Fallback(a, primary, names, ms, req, oracle, k, lastErr);
    if |names| == 0 {
    } else if !Viable(a, primary, req.model, names[0]) {
      assert r == Fallback(a, primary, names[1..], ms, req, oracle, k, lastErr);
      FallbackOrder(a, primary, names[1..], ms, req, oracle, k, lastErr);
    } else {
      var fbCfg := Resolve(a, names[0]).value;
      var req' := DefaultMaxTokens(fbCfg, req);
      var t := TryProvider(ms, names[0], fbCfg, req', oracle, k);
      assert Candidates(a, primary, req.model, names) == [names[0]] + Candidates(a, primary, req'.model, names[1..]) by {
        assert req'.model == req.model;
      }
      if t.result.Failure? {
        var rest := Fallback(a, primary, names[1..], t.metrics, req', oracle, k + |t.trace|, t.result.error);
        assert r == FallbackRun(rest.metrics, rest.req, rest.result, t.trace + rest.trace, [names[0]] + rest.tried);
        FallbackOrder(a, primary, names[1..], t.metrics, req', oracle, k + |t.trace|, t.result.error);
      } else {
        assert r == FallbackRun(t.metrics, req', t.result, t.trace, [names[0]]);
      }
    }
  }

  /** Every call of a finished fallback run went to a candidate it tried,
      and it made calls exactly when it tried a candidate. */
  ghost predicate CallsTried(r: FallbackRun) {
    && (forall n :: CountCalls(r.trace, n) > 0 ==> n in r.tried)
    && (|r.trace| == 0 <==> |r.tried| == 0)
  }

  /** A failed candidate `n` followed by the rest of the loop. */
  lemma CallsTriedStep(n: string, req: Request, t: Tried, rest: FallbackRun)
    requires |t.trace| > 0
    requires t.trace == Repeat(n, req, |t.trace|)
    requires CallsTried(rest)
    ensures CallsTried(FallbackRun(rest.metrics, rest.req, rest.result, t.trace + rest.trace, [n] + rest.tried))
  {
    forall m | CountCalls(t.trace + rest.trace, m) > 0
      ensures m in [n] + rest.tried
    {
      CountCallsAppend(t.trace, rest.trace, m);
      CountCallsUniform(t.trace, n, m);
    }
  }

  /** The fallback loop's calls are as `CallsTried` states. */
  lemma {:induction false} FallbackCallsTried(a: Agent, primary: string, names: seq<string>, ms: map<string, Metrics>,
                                              req: Request, oracle: Oracle, k: nat, lastErr: Error)
    ensures CallsTried(Fallback(a, primary, names, ms, req, oracle, k, lastErr))
    decreases |names|
  {
    var r := Fallback(a, primary, names, ms, req, oracle, k, lastErr);
    if |names| == 0 {
    } else if !Viable(a, primary, req.model, names[0]) {
      assert r == Fallback(a, primary, names[1..], ms, req, oracle, k, lastErr);
      FallbackCallsTried(a, primary, names[1..], ms, req, oracle, k, lastErr);
    } else {
      var fbCfg := Resolve(a, names[0]).value;
      var req' := DefaultMaxTokens(fbCfg, req);
      var t := TryProvider(ms, names[0], fbCfg, req', oracle, k);
      if t.result.Failure? {
        var rest := Fallback(a, primary, names[1..], t.metrics, req', oracle, k + |t.trace|, t.result.error);
        assert r == FallbackRun(rest.metrics, rest.req, rest.result, t.trace + rest.trace, [names[0]] + rest.tried);
        FallbackCallsTried(a, primary, names[1..], t.metrics, req', oracle, k + |t.trace|, t.result.error);
        CallsTriedStep(names[0], req', t, rest);
      } else {
        assert r == FallbackRun(t.metrics, req', t.result, t.trace, [names[0]]);
        forall m | CountCalls(t.trace, m) > 0
          ensures m in [names[0]]
        {
          CountCallsUniform(t.trace, names[0], m);
        }
      }
    }
  }

  /** Only `MaxTokens` is ever defaulted, in the request the loop ends with
      and in every request it sends. */
  ghost predicate OnlyDefaulted(req: Request, r: FallbackRun) {
    && Defaulted(req, r.req)
    && (forall i :: 0 <= i < |r.trace| ==> Defaulted(req, r.trace[i].req))
  }

  lemma OnlyDefaultedStep(req: Request, req': Request, t: Tried, rest: FallbackRun, tried: seq<string>)
    requires Defaulted(req, req')
    requires forall i :: 0 <= i < |t.trace| ==> t.trace[i].req == req'
    requires OnlyDefaulted(req', rest)
    ensures OnlyDefaulted(req,
      FallbackRun(rest.metrics, rest.req, rest.result, t.trace + rest.trace, tried))
  {
    var trace := t.trace + rest.trace;
    forall i | 0 <= i < |trace|
      ensures Defaulted(req, trace[i].req)
    {
      if i >= |t.trace| {
        assert trace[i] == rest.trace[i - |t.trace|];
        DefaultedTrans(req, req', trace[i].req);
      }
    }
    DefaultedTrans(req, req', rest.req);
  }

  /** The fallback loop changes requests only as `OnlyDefaulted` allows. */
  lemma {:induction false} FallbackOnlyDefaults(a: Agent, primary: string, names: seq<string>, ms: map<string, Metrics>,
                                                req: Request, oracle: Oracle, k: nat, lastErr: Error)
    ensures OnlyDefaulted(req, Fallback(a, primary, names, ms, req, oracle, k, lastErr))
    decreases |names|
  {
    var r := Fallback(a, primary, names, ms, req, oracle, k, lastErr);
    if |names| == 0 {
    } else if !Viable(a, primary, req.model, names[0]) {
      assert r == Fallback(a, primary, names[1..], ms, req, oracle, k, lastErr);
      FallbackOnlyDefaults(a, primary, names[1..], ms, req, oracle, k, lastErr);
    } else {
      var fbCfg := Resolve(a, names[0]).value;
      var req' := DefaultMaxTokens(fbCfg, req);
      var t := TryProvider(ms, names[0], fbCfg, req', oracle, k);
      if t.result.Failure? {
        var rest := Fallback(a, primary, names[1..], t.metrics, req', oracle, k + |t.trace|, t.result.error);
        assert r == FallbackRun(rest.metrics, rest.req, rest.result, t.trace + rest.trace, [names[0]] + rest.tried);
        FallbackOnlyDefaults(a, primary, names[1..], t.metrics, req', oracle, k + |t.trace|, t.result.error);
        OnlyDefaultedStep(req, req', t, rest, [names[0]] + rest.tried);
      } else {
        assert r == FallbackRun(t.metrics, req', t.result, t.trace, [names[0]]);
      }
    }
  }

  /** What a finished fallback run promises about its result: the channel of
      the last call when it succeeded, otherwise "all providers failed"
      carrying the last call's error, or `lastErr` when nothing was called. */
  ghost predicate ResultOfLastCall(oracle: Oracle, k: nat, lastErr: Error, r: FallbackRun) {
    && (r.result.Success? ==>
          |r.trace| > 0 && r.trace[|r.trace| - 1].req == r.req && r.result == LastResult(oracle, r.trace, k))
    && (r.result.Failure? && |r.trace| == 0 ==> r.result.error == AllProvidersFailed(lastErr))
    && (r.result.Failure? && |r.trace| > 0 ==>
          LastResult(oracle, r.trace, k).Failure?
          && r.result.error == AllProvidersFailed(LastResult(oracle, r.trace, k).error))
  }

  /** A failed candidate followed by the rest of the loop. */
  lemma ResultOfLastCallStep(oracle: Oracle, k: nat, lastErr: Error, t: Tried, rest: FallbackRun, tried: seq<string>)
    requires |t.trace| > 0 && t.result.Failure? && t.result == LastResult(oracle, t.trace, k)
    requires ResultOfLastCall(oracle, k + |t.trace|, t.result.error, rest)
    ensures ResultOfLastCall(oracle, k, lastErr,
      FallbackRun(rest.metrics, rest.req, rest.result, t.trace + rest.trace, tried))
  {
    if |rest.trace| > 0 {
      LastResultAppend(oracle, t.trace, rest.trace, k);
      assert (t.trace + rest.trace)[|t.trace + rest.trace| - 1] == rest.trace[|rest.trace| - 1];
    } else {
      assert t.trace + rest.trace == t.trace;
    }
  }

  /** The loop's result is the last call's, as `ResultOfLastCall` states. */
  lemma {:induction false} FallbackResult(a: Agent, primary: string, names: seq<string>, ms: map<string, Metrics>,
                                          req: Request, oracle: Oracle, k: nat, lastErr: Error)
    ensures ResultOfLastCall(oracle, k, lastErr, Fallback(a, primary, names, ms, req, oracle, k, lastErr))
    decreases |names|
  {
    var r := Fallback(a, primary, names, ms, req, oracle, k, lastErr);
    if |names| == 0 {
    } else if !Viable(a, primary, req.model, names[0]) {
      assert r == Fallback(a, primary, names[1..], ms, req, oracle, k, lastErr);
      FallbackResult(a, primary, names[1..], ms, req, oracle, k, lastErr);
    } else {
      var fbCfg := Resolve(a, names[0]).value;
      var req' := DefaultMaxTokens(fbCfg, req);
      var t := TryProvider(ms, names[0], fbCfg, req', oracle, k);
      if t.result.Failure? {
        var rest := Fallback(a, primary, names[1..], t.metrics, req', oracle, k + |t.trace|, t.result.error);
        assert r == FallbackRun(rest.metrics, rest.req, rest.result, t.trace + rest.trace, [names[0]] + rest.tried);
        FallbackResult(a, primary, names[1..], t.metrics, req', oracle, k + |t.trace|, t.result.error);
        ResultOfLastCallStep(oracle, k, lastErr, t, rest, [names[0]] + rest.tried);
      } else {
        assert r == FallbackRun(t.metrics, req', t.result, t.trace, [names[0]]);
      }
    }
  }

  // ---------------------------------------------------------------------------
  // Complete
  // ---------------------------------------------------------------------------

  /** A channel as `Complete` returns it: nil, or the finite sequence of
      responses that is delivered before it is closed. */
  datatype Channel = Nil | Open(items: seq<Response>)

  /** How a `Complete` call ends: it returns a channel with a nil error,
      returns a nil channel and an error, or blocks forever on a receive
      from a nil channel. */
  datatype Outcome = Returned(ch: Channel) | Failed(err: Error) | Blocked

  /** `time.Now()` at the cache lookup and at the cache write. */
  datatype Clock = Clock(lookupAt: int, storeAt: int)

  /** The agent after a `Complete` call, how the call ended, and the
      provider calls it made, in order. */
  datatype Completion = Completion(agent: Agent, outcome: Outcome, trace: seq<Call>)

  /** The cache lookup that opens `Complete`: only for non-streaming
      requests whose key can be computed, keyed on the caller's request. */
  function CachedAnswer(a: Agent, now: int, req: Request): (r: Option<string>)
    ensures StreamValue(req) || Cache.CacheKey(req).None? ==> r.None?
    ensures !StreamValue(req) && Cache.CacheKey(req).Some? ==> r == Cache.Lookup(a.cache, Cache.CacheKey(req).value, now)
  {
    if StreamValue(req) then None
    else match Cache.CacheKey(req)
      case None => None
      case Some(key) => Cache.Lookup(a.cache, key, now)
  }

  /** What a receive `resp, ok := <-ch` on a closed channel yields: the first
      element if there is one, else the zero response with `ok` false. */
  function FirstReceived(items: seq<Response>): (r: Response)
    ensures |items| > 0 ==> r == items[0]
    ensures |items| == 0 ==> r == EmptyResponse
  {
    if |items| > 0 then items[0] else EmptyResponse
  }

  /** The `CACHE_STORE` step for the request as defaulted (`req`) and the
      channel the retry and fallback loops left (`ch`). */
  function Deliver(a: Agent, storeAt: int, req: Request, ch: Channel): (r: (Agent, Outcome))
    ensures r.0 == a.(cache := r.0.cache)
    ensures StreamValue(req) ==> r == (a, Returned(ch))
    ensures !StreamValue(req) && ch.Nil? ==> r == (a, Blocked)
    ensures !StreamValue(req) && ch.Open? ==> r.1 == Returned(Open([FirstReceived(ch.items)]))
    ensures r.0.cache != a.cache ==>
      !StreamValue(req) && ch.Open? && |ch.items| > 0 && ch.items[0].err.None? && Cache.CacheKey(req).Some?
    ensures !StreamValue(req) && ch.Open? && |ch.items| > 0 && ch.items[0].err.None? && Cache.CacheKey(req).Some? ==>
      r.0.cache == Cache.Put(a.cache, Cache.CacheKey(req).value, ch.items[0].content, storeAt, a.cacheTTL)
  {
    if StreamValue(req) then (a, Returned(ch))
    else match ch
      case Nil => (a, Blocked)
      case Open(items) =>
        var resp := FirstReceived(items);
        var ok := |items| > 0;
        if ok && resp.err.None? then
          var a' := match Cache.CacheKey(req)
            case Some(key) => a.(cache := Cache.Put(a.cache, key, resp.content, storeAt, a.cacheTTL))
            case None => a;
          (a', Returned(Open([resp])))
        else (a, Returned(Open([resp])))
  }

  /** The provider a `Complete` call addresses: the named one, or the
      default when the name is empty. */
  function Route(a: Agent, providerName: string): (name: string)
    ensures providerName != "" ==> name == providerName
    ensures providerName == "" ==> name == a.defaultProvider
  {
    if providerName == "" then a.defaultProvider else providerName
  }

  /** `Agent.Complete(ctx, providerName, req)`: the cache lookup, the
      provider and model checks, the primary's `MaxTokens` defaulting, and
      then `Dispatch`. Only metrics and the cache can change. */
  function Complete(a: Agent, clock: Clock, providerName: string, req: Request, oracle: Oracle): (r: Completion)
    ensures r.agent == a.(metrics := r.agent.metrics, cache := r.agent.cache)
  {
    var hit := CachedAnswer(a, clock.lookupAt, req);
    if hit.Some? then
      Completion(a, Returned(Open([Response(hit.value, None)])), [])
    else
      var name := Route(a, providerName);
      match Resolve(a, name)
      case None =>
        Completion(a, Failed(ProviderNotRegistered(name)), [])
      case Some(cfg) =>
        if cfg.defaultModel == "" && req.model == "" then
          Completion(a, Failed(NoModelSpecified), [])
        else
          Dispatch(a, clock.storeAt, name, cfg, DefaultMaxTokens(cfg, req), oracle)
  }

  /** The rest of `Complete` once the primary `name` (configuration `cfg`)
      and the defaulted request `req` are fixed: `tryProvider` on the
      primary, the fallback loop when it failed and a fallback list is
      registered, and `CACHE_STORE`. */
  function Dispatch(a: Agent, storeAt: int, name: string, cfg: ProviderConfig, req: Request,
                    oracle: Oracle): (r: Completion)
    ensures r.agent == a.(metrics := r.agent.metrics, cache := r.agent.cache)
    ensures |r.trace| > 0
  {
    var primary := TryProvider(a.metrics, name, cfg, req, oracle, 0);
    if primary.result.Failure? && |a.fallbackProviders| > 0 then
      var fb := Fallback(a, name, a.fallbackProviders, primary.metrics, req, oracle,
                         |primary.trace|, primary.result.error);
      var a1 := a.(metrics := fb.metrics);
      if fb.result.Failure? then
        Completion(a1, Failed(fb.result.error), primary.trace + fb.trace)
      else
        var d := Deliver(a1, storeAt, fb.req, Open(fb.result.value));
        Completion(d.0, d.1, primary.trace + fb.trace)
    else
      var ch := if primary.result.Success? then Open(primary.result.value) else Nil;
      var d := Deliver(a.(metrics := primary.metrics), storeAt, req, ch);
      Completion(d.0, d.1, primary.trace)
  }
}
