/** The agent's response cache (llm.go): keys derived from the six projected
    request fields, entries with an expiry instant, lookups that honour the
    expiry, and the body of the background sweep. */
module Cache {
  import opened Wrappers
  import opened LlmTypes

  /** `CachedRequest`: the fields of a request that the key depends on.
      Everything else, in particular `stream`, is left out. */
  datatype CachedRequest = CachedRequest(
    messages: seq<Message>,
    model: string,
    temperature: Float,
    maxTokens: int,
    topP: Float,
    stop: seq<string>)

  /** `cacheEntry`. */
  datatype Entry = Entry(content: string, expiresAt: int)

  /** The digest of the JSON encoding of a `CachedRequest` is modelled by
      the projected record itself, that is, as a collision-free hash. */
  type Key = CachedRequest
  type Store = map<Key, Entry>

  const DefaultTTL: int := 5 * Minute
  const SweepInterval: int := Minute

  function Project(req: Request): CachedRequest {
    CachedRequest(req.messages, req.model, req.temperature, req.maxTokens, req.topP, req.stop)
  }

  /** `getCacheKey`: fails exactly when JSON encoding fails, which for these
      fields happens when a float is NaN or infinite. */
  function CacheKey(req: Request): (k: Option<Key>)
    ensures k.Some? <==> req.temperature.Encodable() && req.topP.Encodable()
    ensures k.Some? ==> k.value == CachedRequest(req.messages, req.model, req.temperature, req.maxTokens, req.topP, req.stop)
  {
    if req.temperature.Encodable() && req.topP.Encodable() then Some(Project(req)) else None
  }

  /** Two requests have the same key exactly when they agree on the six
      projected fields; in particular the stream flag never matters. */
  lemma KeyDeterminedByProjection(r1: Request, r2: Request)
    requires CacheKey(r1).Some? && CacheKey(r2).Some?
    ensures CacheKey(r1) == CacheKey(r2) <==>
      (r1.messages == r2.messages && r1.model == r2.model && r1.temperature == r2.temperature
       && r1.maxTokens == r2.maxTokens && r1.topP == r2.topP && r1.stop == r2.stop)
  {
  }

  /** Negative zero passes every comparison with zero, yet `json.Marshal`
      writes it as `-0`: a request with temperature -0.0 has a key of its
      own, apart from the same request with 0.0. */
  lemma NegativeZeroOwnKey(req: Request)
    requires req.topP.Encodable()
    ensures NegZero.IsZero() && Zero.IsZero()
    ensures CacheKey(req.(temperature := NegZero)).Some? && CacheKey(req.(temperature := Zero)).Some?
    ensures CacheKey(req.(temperature := NegZero)) != CacheKey(req.(temperature := Zero))
  {
  }

  lemma KeyIgnoresStream(req: Request, s: Option<bool>)
    ensures CacheKey(req.(stream := s)) == CacheKey(req)
  {
  }

  /** An entry is served only while its expiry is strictly in the future. */
  predicate Live(e: Entry, now: int) {
    e.expiresAt > now
  }

  /** The lookup `Complete` performs: a hit needs the key present and the
      entry still live. */
  function Lookup(c: Store, k: Key, now: int): (r: Option<string>)
    ensures r.Some? <==> k in c && Live(c[k], now)
    ensures r.Some? ==> r.value == c[k].content
  {
    if k in c && Live(c[k], now) then Some(c[k].content) else None
  }

  /** The write after a successful non-streaming completion: insert or
      overwrite, expiring `ttl` after `now`. */
  function Put(c: Store, k: Key, content: string, now: int, ttl: int): (r: Store)
    ensures r.Keys == c.Keys + {k}
    ensures r[k] == Entry(content, now + ttl)
    ensures forall k' :: k' in c && k' != k ==> r[k'] == c[k']
  {
    c[k := Entry(content, now + ttl)]
  }

  /** An entry stored at `now` with lifetime `ttl` is served at exactly the
      instants before `now + ttl`. */
  lemma TtlWindow(c: Store, k: Key, content: string, now: int, ttl: int, t: int)
    ensures Lookup(Put(c, k, content, now, ttl), k, t) == (if t < now + ttl then Some(content) else None)
  {
  }

  /** Writing one key never changes what another key serves. */
  lemma PutIsolated(c: Store, k: Key, k': Key, content: string, now: int, ttl: int, t: int)
    requires k' != k
    ensures Lookup(Put(c, k, content, now, ttl), k', t) == Lookup(c, k', t)
  {
  }

  /** One tick of the background sweep: drop every entry whose expiry is
      before `now` (`expiresAt.Before(now)`). */
  function Sweep(c: Store, now: int): (r: Store)
    ensures forall k :: k in r <==> k in c && !(c[k].expiresAt < now)
    ensures forall k :: k in r ==> r[k] == c[k]
  {
    map k | k in c && !(c[k].expiresAt < now) :: c[k]
  }

  /** Sweeping twice at the same instant is sweeping once. */
  lemma SweepIdempotent(c: Store, now: int)
    ensures Sweep(Sweep(c, now), now) == Sweep(c, now)
  {
  }

  /** A later sweep removes at least what an earlier one did. */
  lemma SweepMonotone(c: Store, t1: int, t2: int)
    requires t1 <= t2
    ensures Sweep(Sweep(c, t1), t2) == Sweep(c, t2)
    ensures Sweep(c, t2).Keys <= Sweep(c, t1).Keys
  {
  }

  /** The sweep is pure housekeeping: a lookup at the sweep instant or any
      later one answers the same with or without it. An entry expiring
      exactly at `now` survives the sweep but is already not served. */
  lemma SweepPreservesLookup(c: Store, now: int, k: Key, t: int)
    requires now <= t
    ensures Lookup(Sweep(c, now), k, t) == Lookup(c, k, t)
  {
  }
}
