/** The provider response cache with schema migration, behind the rate limiter. */
module ProviderCache {
  import opened Basics
  import RateLimit

  type Raw = string

  datatype Candidate = Candidate(schema: nat, body: string)

  datatype Key = Key(provider: string, operation: string, identity: string)

  datatype Entry = Entry(candidates: seq<Candidate>, raw: Raw, schema: nat, fetchedAt: real, expiresAt: real)

  /** What a normalizer of a given schema version makes of a raw response; None is a refusal. */
  type Normalizer = (Key, nat, Raw) -> Option<seq<Candidate>>

  /** `_normalize`: a refusal, or a candidate of another schema, is a malformed response. */
  function Normalized(n: Normalizer, key: Key, version: nat, raw: Raw): (r: Option<seq<Candidate>>)
    ensures r.Some? ==> forall c :: c in r.value ==> c.schema == version
  {
    var r := n(key, version, raw);
    if r.Some? && (forall c :: c in r.value ==> c.schema == version) then r else None
  }

  datatype Response = Unreachable | Http(status: int, body: Option<Raw>, retryAfter: real)

  datatype Error = Malformed | Unavailable | Provider

  datatype Result = Ok(candidates: seq<Candidate>) | Failed(error: Error)

  datatype Activity = Activity(hits: nat, misses: nat, migrations: nat, errors: nat, rateLimited: nat, requests: nat)

  /** Every row holds what its schema's normalizer makes of its raw response. */
  ghost predicate Agrees(cache: map<Key, Entry>, n: Normalizer) {
    forall k :: k in cache ==> Normalized(n, k, cache[k].schema, cache[k].raw) == Some(cache[k].candidates)
  }

  class ProviderStore {
    var cache: map<Key, Entry>

    constructor ()
      ensures cache == map[]
    {
      cache := map[];
    }

    method GetCache(key: Key, now: real) returns (entry: Option<Entry>, stale: bool)
      ensures entry.Some? <==> key in cache
      ensures entry.Some? ==> entry.value == cache[key] && stale == (now >= cache[key].expiresAt)
    {
      if key !in cache { return None, false; }
      return Some(cache[key]), now >= cache[key].expiresAt;
    }

    /** Replace the normalized form only: response, fetch time and expiry stay. */
    method RewriteNormalization(key: Key, candidates: seq<Candidate>, version: nat) returns (ok: bool)
      modifies this
      ensures ok <==> key in old(cache)
      ensures cache == if ok
                then old(cache)[key := old(cache)[key].(candidates := candidates, schema := version)]
                else old(cache)
    {
      if key !in cache { return false; }
      cache := cache[key := cache[key].(candidates := candidates, schema := version)];
      return true;
    }

    method PutCache(key: Key, candidates: seq<Candidate>, raw: Raw, version: nat, ttl: real, now: real)
      modifies this
      ensures cache == old(cache)[key := Entry(candidates, raw, version, now, now + ttl)]
    {
      cache := cache[key := Entry(candidates, raw, version, now, now + ttl)];
    }
  }

  class CachedProviderClient {
    const store: ProviderStore
    const limiter: RateLimit.DurableRateLimiter
    const policy: RateLimit.Policy
    const normalizer: Normalizer
    const version: nat
    const offline: bool
    const networkEnabled: bool
    const maxRetries: int
    const ttl: real
    const clock: nat -> real
    const transport: nat -> Response
    var ticks: nat
    var sent: nat
    var activity: Activity

    constructor (store: ProviderStore, limiter: RateLimit.DurableRateLimiter, policy: RateLimit.Policy,
                 normalizer: Normalizer,
                 version: nat, offline: bool, networkEnabled: bool, maxRetries: int, ttl: real,
                 clock: nat -> real, transport: nat -> Response)
      ensures this.store == store && this.limiter == limiter && this.policy == policy && this.normalizer == normalizer
      ensures this.version == version && this.offline == offline && this.clock == clock && this.transport == transport
      ensures sent == 0 && ticks == 0
    {
      this.store, this.limiter, this.policy, this.normalizer := store, limiter, policy, normalizer;
      this.version, this.offline, this.networkEnabled := version, offline, networkEnabled;
      this.maxRetries, this.ttl := maxRetries, ttl;
      this.clock, this.transport := clock, transport;
      ticks, sent, activity := 0, 0, Activity(0, 0, 0, 0, 0, 0);
    }

    ghost predicate Valid(bucket: RateLimit.Key)
      reads this, store, limiter
    {
      && RateLimit.Sensible(policy) && RateLimit.Spaced(limiter.Rows(bucket), policy)
      && Agrees(store.cache, normalizer)
    }

    predicate Fresh(key: Key)
      reads this, store
    {
      key in store.cache && clock(ticks) < store.cache[key].expiresAt
    }

    /** There is a row that may be served and that the present schema can read. */
    predicate Servable(key: Key)
      reads this, store
    {
      && key in store.cache && (offline || Fresh(key))
      && Normalized(normalizer, key, version, store.cache[key].raw).Some?
    }

    predicate Good(key: Key, response: Response) {
      && Successful(response)
      && response.body.Some? && Normalized(normalizer, key, version, response.body.value).Some?
    }

    /** Requests `from` up to `to` were made: all but the last came to nothing that time could not mend, the
        last ended the attempts or was the last one allowed, and it alone decides on success. */
    ghost predicate Exchanged(key: Key, from: nat, to: nat, r: Result) {
      && from <= to && (maxRetries < 0 ==> to == from && r == Failed(Provider))
      && (forall i :: from <= i < to - 1 ==> Transient(transport(i)))
      && (maxRetries >= 0 ==>
           && from < to <= from + maxRetries + 1
           && (Transient(transport(to - 1)) ==> to == from + maxRetries + 1)
           && (r.Ok? <==> Good(key, transport(to - 1)))
           && (r.Failed? ==> r.error == if Successful(transport(to - 1)) then Malformed else Provider))
    }

    /** A refusal for too many requests blocks the bucket for as long as the provider asked, and nothing
        else blocks it. */
    ghost predicate Blocked(bucket: RateLimit.Key, before: map<RateLimit.Key, real>, after: map<RateLimit.Key, real>,
                            from: nat, to: nat, now: real)
    {
      if from < to && transport(to - 1).Http? && transport(to - 1).status == 429
      then bucket in after && after[bucket] >= now + RateLimit.Max(0.0, transport(to - 1).retryAfter)
      else after == before
    }

    method Get(key: Key, bucket: RateLimit.Key) returns (r: Result)
      requires Valid(bucket)
      modifies this`ticks, this`sent, this`activity, store, limiter
      ensures Valid(bucket)
      ensures r.Ok? ==>
                key in store.cache && Some(r.candidates) == Normalized(normalizer, key, version, store.cache[key].raw)
      ensures !(r.Ok? && sent > old(sent)) ==> RowKept(old(store.cache), store.cache, key)
      ensures r.Ok? && sent > old(sent) ==>
        && Stored(old(store.cache), store.cache, key, version, normalizer, ttl)
        && Received(transport(sent - 1), store.cache[key].raw)
      ensures sent - old(sent) == |limiter.Rows(bucket)| - |old(limiter.Rows(bucket))|
      ensures activity.requests - old(activity.requests) == sent - old(sent)
      ensures sent - old(sent) <= (if maxRetries < 0 then 0 else maxRetries + 1)
      ensures offline || !networkEnabled ==> sent == old(sent)
      ensures old(Fresh(key)) && Current(old(store.cache)[key], version) ==>
                sent == old(sent) && store.cache == old(store.cache) && r == Ok(old(store.cache)[key].candidates)
      ensures !offline && !old(Fresh(key)) && r.Ok? ==> sent > old(sent)
      ensures old(Servable(key)) ==> r.Ok? && sent == old(sent)
      ensures !old(Servable(key)) && (offline || !networkEnabled) ==> r == Failed(Unavailable) && sent == old(sent)
      ensures !old(Servable(key)) && !offline && networkEnabled ==> Exchanged(key, old(sent), sent, r)
      ensures Blocked(bucket, old(limiter.blocks), limiter.blocks, old(sent), sent, clock(ticks))
    {
      hide RateLimit.Spaced, Normalized, Exchanged, Agrees, Stored, Received;
      var served;
      served, r := FromStore(key, bucket);
      if served { return; }
      if offline || !networkEnabled { return Failed(Unavailable); }
      activity := activity.(misses := activity.misses + 1);
      r := Fetch(key, bucket);
    }

    /** What the stored row alone decides. */
    method FromStore(key: Key, bucket: RateLimit.Key) returns (served: bool, r: Result)
      requires Valid(bucket)
      modifies this`ticks, this`activity, store
      ensures Valid(bucket) && RowKept(old(store.cache), store.cache, key)
      ensures old(Servable(key)) ==> served && r.Ok? && key in store.cache
      ensures r.Ok? ==>
                key in store.cache && Some(r.candidates) == Normalized(normalizer, key, version, store.cache[key].raw)
      ensures !old(Servable(key)) ==>
                r == Failed(Unavailable) && (served ==> offline) && store.cache == old(store.cache)
      ensures old(Fresh(key)) && Current(old(store.cache)[key], version) ==>
                store.cache == old(store.cache) && r == Ok(old(store.cache)[key].candidates)
      ensures activity.requests == old(activity.requests)
    {
      hide RateLimit.Spaced, Normalized;
      var cached, stale := store.GetCache(key, clock(ticks));
      ticks := ticks + 1;
      if cached.Some? {
        var entry := cached.value;
        if !Current(entry, version) {
          if !stale || offline {
            r := Migrate(key, bucket, entry);
            return r.Ok? || offline, r;
          }
        } else if !stale || offline {
          activity := activity.(hits := activity.hits + 1);
          return true, Ok(entry.candidates);
        }
      }
      return false, Failed(Unavailable);
    }

    /** Renormalize a cached response under the current schema. */
    method Migrate(key: Key, ghost bucket: RateLimit.Key, entry: Entry) returns (r: Result)
      requires Valid(bucket) && key in store.cache && store.cache[key] == entry
      modifies this`activity, store
      ensures Valid(bucket) && RowKept(old(store.cache), store.cache, key)
      ensures r.Failed? ==> r == Failed(Unavailable) && store.cache == old(store.cache)
      ensures activity.requests == old(activity.requests)
      ensures r.Ok? ==> Some(r.candidates) == Normalized(normalizer, key, version, store.cache[key].raw)
      ensures r.Ok? <==> Normalized(normalizer, key, version, entry.raw).Some?
    {
      hide RateLimit.Spaced, Normalized;
      var candidates := Normalized(normalizer, key, version, entry.raw);
      if candidates.None? { return Failed(Unavailable); }
      var ok := store.RewriteNormalization(key, candidates.value, version);
      activity := activity.(hits := activity.hits + 1, migrations := activity.migrations + 1);
      return Ok(candidates.value);
    }

    method Fetch(key: Key, bucket: RateLimit.Key) returns (r: Result)
      requires Valid(bucket)
      modifies this`ticks, this`sent, this`activity, store, limiter
      ensures Valid(bucket)
      ensures r.Ok? ==>
                key in store.cache && Some(r.candidates) == Normalized(normalizer, key, version, store.cache[key].raw)
      ensures r.Ok? ==> sent > old(sent) && Stored(old(store.cache), store.cache, key, version, normalizer, ttl)
      ensures r.Ok? ==> Received(transport(sent - 1), store.cache[key].raw)
      ensures r.Failed? ==> store.cache == old(store.cache)
      ensures sent - old(sent) == |limiter.Rows(bucket)| - |old(limiter.Rows(bucket))|
      ensures activity.requests - old(activity.requests) == sent - old(sent)
      ensures 0 <= sent - old(sent) <= (if maxRetries < 0 then 0 else maxRetries + 1)
      ensures Exchanged(key, old(sent), sent, r)
      ensures Blocked(bucket, old(limiter.blocks), limiter.blocks, old(sent), sent, clock(ticks))
    {
      hide RateLimit.Spaced, Normalized, Stored, Agrees, Good;
      r := Failed(Provider);
      var attempt := 0;
      while attempt <= maxRetries
        invariant 0 <= attempt && (attempt <= maxRetries + 1 || attempt == 0) && r == Failed(Provider)
        invariant Valid(bucket) && store.cache == old(store.cache) && limiter.blocks == old(limiter.blocks)
        invariant sent - old(sent) == attempt == |limiter.Rows(bucket)| - |old(limiter.Rows(bucket))|
        invariant activity.requests - old(activity.requests) == attempt
        invariant forall i :: old(sent) <= i < sent ==> Transient(transport(i))
        invariant attempt > 0 ==> !Good(key, transport(sent - 1)) && !Successful(transport(sent - 1))
      {
        var done;
        done, r := Attempt(key, bucket);
        attempt := attempt + 1;
        if done { return; }
      }
    }

    /** One exchange: a provider that is unreachable or failing is worth another one. */
    method Attempt(key: Key, bucket: RateLimit.Key) returns (done: bool, r: Result)
      requires Valid(bucket)
      modifies this`ticks, this`sent, this`activity, store, limiter
      ensures Valid(bucket)
      ensures sent == old(sent) + 1 && activity.requests == old(activity.requests) + 1
      ensures |limiter.Rows(bucket)| == |old(limiter.Rows(bucket))| + 1
      ensures done <==> !Transient(transport(old(sent)))
      ensures r.Ok? <==> Good(key, transport(old(sent)))
      ensures r.Failed? ==> r.error == if Successful(transport(old(sent))) then Malformed else Provider
      ensures r.Ok? ==>
                && key in store.cache && Stored(old(store.cache), store.cache, key, version, normalizer, ttl)
                && Some(r.candidates) == Normalized(normalizer, key, version, store.cache[key].raw)
                && Received(transport(old(sent)), store.cache[key].raw)
      ensures r.Failed? ==> store.cache == old(store.cache)
      ensures Blocked(bucket, old(limiter.blocks), limiter.blocks, old(sent), sent, clock(ticks))
    {
      hide RateLimit.Spaced, Normalized;
      done, r := true, Failed(Provider);
      var at, calls := limiter.WaitAndReserve(bucket, policy, clock(ticks));
      var response := transport(sent);
      ticks, sent := ticks + 1, sent + 1;
      activity := activity.(requests := activity.requests + 1);
      if response.Http? && 200 <= response.status < 300 {
        r := Accept(key, bucket, response.body);
        return;
      }
      activity := activity.(errors := activity.errors + 1);
      if response.Http? && response.status == 429 {
        activity := activity.(rateLimited := activity.rateLimited + 1);
        limiter.Block(bucket, clock(ticks), response.retryAfter);
        return;
      }
      done := response.Http? && response.status < 500;
    }

    /** A successful response is normalized before anything is stored. */
    method Accept(key: Key, ghost bucket: RateLimit.Key, body: Option<Raw>) returns (r: Result)
      requires Valid(bucket)
      modifies this`ticks, store
      ensures Valid(bucket)
      ensures r.Ok? ==>
                key in store.cache && Some(r.candidates) == Normalized(normalizer, key, version, store.cache[key].raw)
      ensures r.Ok? ==>
                && Stored(old(store.cache), store.cache, key, version, normalizer, ttl)
                && body == Some(store.cache[key].raw)
      ensures r.Failed? ==> store.cache == old(store.cache)
      ensures r.Ok? <==> body.Some? && Normalized(normalizer, key, version, body.value).Some?
      ensures r.Failed? ==> r.error == Malformed
    {
      hide RateLimit.Spaced, Normalized;
      if body.None? { return Failed(Malformed); }
      var candidates := Normalized(normalizer, key, version, body.value);
      if candidates.None? { return Failed(Malformed); }
      store.PutCache(key, candidates.value, body.value, version, ttl, clock(ticks));
      ticks := ticks + 1;
      return Ok(candidates.value);
    }
  }

  predicate Current(entry: Entry, version: nat) {
    entry.schema == version && forall c :: c in entry.candidates ==> c.schema == version
  }

  /** A migration changes nothing but the normalized form of one row: not its response, not its expiry. */
  predicate RowKept(before: map<Key, Entry>, after: map<Key, Entry>, key: Key) {
    && before.Keys == after.Keys
    && (forall k :: k in before && k != key ==> after[k] == before[k])
    && (key in before ==> after[key] == before[key].(candidates := after[key].candidates, schema := after[key].schema))
  }

  /** A response was stored under `key` with its current normal form and a fresh expiry. */
  predicate Stored(before: map<Key, Entry>, after: map<Key, Entry>, key: Key, version: nat, n: Normalizer, ttl: real) {
    && key in after && after.Keys == before.Keys + {key}
    && (forall k :: k in before && k != key ==> after[k] == before[k])
    && after[key].schema == version && Normalized(n, key, version, after[key].raw) == Some(after[key].candidates)
    && after[key].expiresAt == after[key].fetchedAt + ttl
  }

  predicate Successful(response: Response) {
    response.Http? && 200 <= response.status < 300
  }

  /** Another attempt may fare better. */
  predicate Transient(response: Response) {
    response.Unreachable? || response.status >= 500
  }

  predicate Received(response: Response, raw: Raw) {
    Successful(response) && response.body == Some(raw)
  }

  // ---------------------------------------------------------------- histories of requests

  datatype Request = Request(key: Key, version: nat, offline: bool, networkEnabled: bool, maxRetries: int, ttl: real)

  /** A response that was stored: for which key, when it expires, and which of the request's exchanges it was. */
  datatype Fetched = Fetched(key: Key, raw: Raw, expiresAt: real, exchange: nat)

  /** The last response that a log of stored responses has for a key. */
  function LastStored(log: seq<Fetched>, key: Key): Option<Fetched> {
    if log == [] then None
    else if log[|log| - 1].key == key then Some(log[|log| - 1])
    else LastStored(log[..|log| - 1], key)
  }

  /** The cache has a row for exactly the keys of the log, with the response stored last and its expiry. */
  ghost predicate Logged(cache: map<Key, Entry>, log: seq<Fetched>) {
    && (forall k :: k in cache <==> LastStored(log, k).Some?)
    && (forall k :: k in cache ==>
         LastStored(log, k).value.raw == cache[k].raw && LastStored(log, k).value.expiresAt == cache[k].expiresAt)
  }

  lemma LoggedKept(before: map<Key, Entry>, after: map<Key, Entry>, log: seq<Fetched>, key: Key)
    requires Logged(before, log) && RowKept(before, after, key)
    ensures Logged(after, log)
  {
    assert forall k :: k in after <==> k in before;
  }

  lemma LoggedStored(before: map<Key, Entry>, after: map<Key, Entry>, log: seq<Fetched>, entry: Fetched,
                     version: nat, n: Normalizer, ttl: real)
    requires Logged(before, log) && Stored(before, after, entry.key, version, n, ttl)
    requires entry.raw == after[entry.key].raw && entry.expiresAt == after[entry.key].expiresAt
    ensures Logged(after, log + [entry])
  {
    var longer := log + [entry];
    assert longer[..|log|] == log;
    assert forall k :: k in after <==> k in before || k == entry.key;
  }

  /** How many responses had been stored before request `i`. */
  function Mark(marks: seq<nat>, i: nat): nat
    requires i <= |marks|
  {
    if i == 0 then 0 else marks[i - 1]
  }

  /** Request `i` stored at most one response, which it received for its own key; what it returned is the
      current normal form of the response stored last for its key; and online it stored one unless the
      one before had not expired. */
  ghost predicate Answered(i: nat, q: Request, r: Result, before: seq<Fetched>, after: seq<Fetched>,
                           clock: (nat, nat) -> real, transport: (nat, nat) -> Response, n: Normalizer) {
    && (after == before || (r.Ok? && |after| == |before| + 1 && before <= after
         && after[|before|].key == q.key && Received(transport(i, after[|before|].exchange), after[|before|].raw)))
    && (r.Ok? ==>
         && LastStored(after, q.key).Some?
         && Normalized(n, q.key, q.version, LastStored(after, q.key).value.raw) == Some(r.candidates))
    && (r.Ok? && after == before && !q.offline ==>
         LastStored(before, q.key).Some? && clock(i, 0) < LastStored(before, q.key).value.expiresAt)
  }

  ghost predicate AllAnswered(requests: seq<Request>, results: seq<Result>, log: seq<Fetched>, marks: seq<nat>,
                              clock: (nat, nat) -> real, transport: (nat, nat) -> Response, n: Normalizer) {
    && |results| == |marks| == |requests| && Mark(marks, |marks|) == |log|
    && forall i: nat :: i < |requests| ==> AnsweredAt(requests, results, log, marks, clock, transport, n, i)
  }

  ghost predicate AnsweredAt(requests: seq<Request>, results: seq<Result>, log: seq<Fetched>, marks: seq<nat>,
                             clock: (nat, nat) -> real, transport: (nat, nat) -> Response, n: Normalizer, i: nat)
    requires i < |requests| == |results| == |marks|
  {
    && Mark(marks, i) <= marks[i] <= |log|
    && Answered(i, requests[i], results[i], log[..Mark(marks, i)], log[..marks[i]], clock, transport, n)
  }

  lemma AnswersGrow(requests: seq<Request>, results: seq<Result>, log: seq<Fetched>, marks: seq<nat>,
                    clock: (nat, nat) -> real, transport: (nat, nat) -> Response, n: Normalizer,
                    q: Request, r: Result, longer: seq<Fetched>)
    requires AllAnswered(requests, results, log, marks, clock, transport, n) && log <= longer
    requires Answered(|requests|, q, r, log, longer, clock, transport, n)
    ensures AllAnswered(requests + [q], results + [r], longer, marks + [|longer|], clock, transport, n)
  {
    hide Answered;
    var m := |requests|;
    assert longer[..|longer|] == longer && longer[..|log|] == log;
    forall i: nat | i < m + 1
      ensures AnsweredAt(requests + [q], results + [r], longer, marks + [|longer|], clock, transport, n, i)
    {
      assert Mark(marks + [|longer|], i) == Mark(marks, i);
      if i < m {
        assert AnsweredAt(requests, results, log, marks, clock, transport, n, i);
        assert longer[..Mark(marks, i)] == log[..Mark(marks, i)] && longer[..marks[i]] == log[..marks[i]];
      }
    }
  }

  /** Cache agreement over every history of requests, expiries, offline switches and schema upgrades:
      whatever is returned is the current normal form of the response last stored for its key, and expired
      responses are never served online. The log of stored responses had length `marks[i]` after request `i`. */
  method AnyHistory(store: ProviderStore, limiter: RateLimit.DurableRateLimiter, policy: RateLimit.Policy,
                    normalizer: Normalizer,
                    bucket: RateLimit.Key, requests: seq<Request>,
                    clock: (nat, nat) -> real, transport: (nat, nat) -> Response)
    returns (results: seq<Result>, ghost log: seq<Fetched>, ghost marks: seq<nat>)
    requires RateLimit.Sensible(policy) && RateLimit.Spaced(limiter.Rows(bucket), policy) && store.cache == map[]
    modifies store, limiter
    ensures AllAnswered(requests, results, log, marks, clock, transport, normalizer)
    ensures Logged(store.cache, log) && Agrees(store.cache, normalizer)
  {
    hide RateLimit.Spaced, Normalized, AllAnswered, Logged, Agrees, Answered;
    results, log, marks := [], [], [];
    NothingAsked(store.cache, clock, transport, normalizer);
    for i := 0 to |requests|
      invariant |results| == |marks| == i
      invariant RateLimit.Spaced(limiter.Rows(bucket), policy) && Agrees(store.cache, normalizer)
      invariant Logged(store.cache, log)
      invariant AllAnswered(requests[..i], results, log, marks, clock, transport, normalizer)
    {
      var r;
      ghost var longer;
      r, longer := Ask(store, limiter, policy, normalizer, bucket, i, requests[i], log, clock, transport);
      AnswersGrow(requests[..i], results, log, marks, clock, transport, normalizer, requests[i], r, longer);
      assert requests[..i + 1] == requests[..i] + [requests[i]];
      results, log, marks := results + [r], longer, marks + [|longer|];
    }
    assert requests[..|requests|] == requests;
  }

  lemma NothingAsked(cache: map<Key, Entry>, clock: (nat, nat) -> real, transport: (nat, nat) -> Response,
                     n: Normalizer)
    requires cache == map[]
    ensures Logged(cache, []) && Agrees(cache, n) && AllAnswered([], [], [], [], clock, transport, n)
  {
  }

  method Ask(store: ProviderStore, limiter: RateLimit.DurableRateLimiter, policy: RateLimit.Policy,
             normalizer: Normalizer,
             bucket: RateLimit.Key, i: nat, q: Request, ghost log: seq<Fetched>,
             clock: (nat, nat) -> real, transport: (nat, nat) -> Response)
    returns (r: Result, ghost longer: seq<Fetched>)
    requires RateLimit.Sensible(policy) && RateLimit.Spaced(limiter.Rows(bucket), policy)
    requires Agrees(store.cache, normalizer) && Logged(store.cache, log)
    modifies store, limiter
    ensures RateLimit.Spaced(limiter.Rows(bucket), policy) && Agrees(store.cache, normalizer)
    ensures Logged(store.cache, longer)
    ensures log <= longer && Answered(i, q, r, log, longer, clock, transport, normalizer)
  {
    hide RateLimit.Spaced, Normalized, Agrees;
    ghost var before := store.cache;
    var client := new CachedProviderClient(store, limiter, policy, normalizer, q.version, q.offline, q.networkEnabled,
      q.maxRetries, q.ttl, (k: nat) => clock(i, k), (k: nat) => transport(i, k));
    r := client.Get(q.key, bucket);
    longer := log;
    if r.Ok? && client.sent > 0 {
      ghost var entry := Fetched(q.key, store.cache[q.key].raw, store.cache[q.key].expiresAt, client.sent - 1);
      LoggedStored(before, store.cache, log, entry, q.version, normalizer, client.ttl);
      longer := log + [entry];
    } else {
      LoggedKept(before, store.cache, log, q.key);
    }
  }
}
