/**
 * The fixed-window request counter behind `IdempotencyAuth`
 * (template/src/Core/Middlewares/idempotency.middleware.ts).
 *
 * `Date.now()` is the parameter `now` (milliseconds), so all arithmetic is on
 * integers. The periodic timer that runs the cleanup is not modelled; the
 * cleanup itself is.
 */
module RateLimit {

  /** The defaults of `IdempotencyAuth(timeWindow = 10000, maxRequests = 10)`. */
  const DefaultTimeWindow: int := 10000
  const DefaultMaxRequests: int := 10

  /** A cache entry: when the current window started and how many requests it saw. */
  datatype Entry = Entry(timestamp: int, count: int)

  /** The parts of a request the middleware reads. */
  datatype Request = Request(verb: string, url: string, ip: string)

  /** The middleware's answer: pass the request on with `next()`, or respond 429
      with `{message: 'Too Many Requests', retryAfter}`. */
  datatype Decision =
    | Next
    | TooManyRequests(status: int, message: string, retryAfter: int)

  /** `generateKey`: method (`verb`), url and ip joined with `-`. */
  function Key(req: Request): (k: string)
    ensures |k| == |req.verb| + |req.url| + |req.ip| + 2
    ensures k[|req.verb|] == '-' && k[|k| - |req.ip| - 1] == '-'
  {
    req.verb + "-" + req.url + "-" + req.ip
  }

  /** `Math.ceil(x / 1000)` on an integer number of milliseconds. */
  function CeilDiv1000(x: int): (r: int)
    ensures (r - 1) * 1000 < x <= r * 1000
  {
    -((-x) / 1000)
  }

  /** One request with key `key` at time `now`: the decision and the new cache. */
  function Step(cache: map<string, Entry>, key: string, now: int, timeWindow: int, maxRequests: int)
    : (r: (Decision, map<string, Entry>))
  {
    if key in cache then
      var entry := cache[key];
      if now - entry.timestamp < timeWindow then
        if entry.count >= maxRequests then
          (TooManyRequests(429, "Too Many Requests", CeilDiv1000(entry.timestamp + timeWindow - now)), cache)
        else
          (Next, cache[key := entry.(count := entry.count + 1)])
      else
        (Next, cache[key := Entry(now, 1)])
    else
      (Next, cache[key := Entry(now, 1)])
  }

  /** Whether the cleanup drops an entry: its window ended more than `timeWindow` ago. */
  predicate Expired(e: Entry, now: int, timeWindow: int) {
    now - e.timestamp > timeWindow
  }

  /** `cleanupCache`: the cache without its expired entries. */
  function Cleanup(cache: map<string, Entry>, now: int, timeWindow: int): (c: map<string, Entry>)
    ensures forall k :: k in c <==> k in cache && !Expired(cache[k], now, timeWindow)
    ensures forall k :: k in c ==> c[k] == cache[k]
  {
    map k | k in cache && !Expired(cache[k], now, timeWindow) :: cache[k]
  }

  /** Every entry counts between 1 and `max(1, maxRequests)` requests. */
  predicate CountsBounded(cache: map<string, Entry>, maxRequests: int) {
    forall k :: k in cache ==> 1 <= cache[k].count <= if maxRequests < 1 then 1 else maxRequests
  }

  /** An unseen key gets `{timestamp: now, count: 1}` and the request passes. */
  lemma UnseenKeyStartsWindow(cache: map<string, Entry>, key: string, now: int, timeWindow: int, maxRequests: int)
    requires key !in cache
    ensures Step(cache, key, now, timeWindow, maxRequests) == (Next, cache[key := Entry(now, 1)])
  {
  }

  /**
   * A request for a known key: inside the window and under the limit it is
   * counted (timestamp kept) and passes; inside the window at the limit it is
   * refused with a positive `retryAfter`, the seconds left in the window
   * rounded up, and the entry is left alone; once the window has passed, the
   * entry restarts at `now` with count 1 and the request passes.
   */
  lemma KnownKeyDecision(cache: map<string, Entry>, key: string, now: int, timeWindow: int, maxRequests: int)
    requires key in cache
    ensures var e := cache[key];
      var (d, c) := Step(cache, key, now, timeWindow, maxRequests);
      && (now - e.timestamp < timeWindow && e.count < maxRequests ==>
            d == Next && c == cache[key := Entry(e.timestamp, e.count + 1)])
      && (now - e.timestamp < timeWindow && e.count >= maxRequests ==>
            && d.TooManyRequests? && d.status == 429 && d.message == "Too Many Requests"
            && c == cache
            && d.retryAfter >= 1
            && (d.retryAfter - 1) * 1000 < e.timestamp + timeWindow - now <= d.retryAfter * 1000)
      && (now - e.timestamp >= timeWindow ==> d == Next && c == cache[key := Entry(now, 1)])
  {
  }

  /** A refusal always asks the client to wait at least one second. */
  lemma RefusalWaitsAtLeastOneSecond(cache: map<string, Entry>, key: string, now: int, timeWindow: int, maxRequests: int)
    ensures var d := Step(cache, key, now, timeWindow, maxRequests).0;
      d.TooManyRequests? ==> d.retryAfter >= 1
  {
  }

  /** A request touches only its own key. */
  lemma StepTouchesOnlyItsKey(cache: map<string, Entry>, key: string, now: int, timeWindow: int, maxRequests: int)
    ensures var c := Step(cache, key, now, timeWindow, maxRequests).1;
      && c.Keys == cache.Keys + {key}
      && forall k :: k in cache && k != key ==> c[k] == cache[k]
  {
  }

  /** Counts stay within `1..maxRequests` (when `maxRequests >= 1`) under requests
      and cleanups. */
  lemma StepKeepsCountsBounded(cache: map<string, Entry>, key: string, now: int, timeWindow: int, maxRequests: int)
    requires CountsBounded(cache, maxRequests)
    ensures CountsBounded(Step(cache, key, now, timeWindow, maxRequests).1, maxRequests)
    ensures CountsBounded(Cleanup(cache, now, timeWindow), maxRequests)
  {
  }

  /** With a dash-free method and ip (HTTP methods and IP addresses have none),
      distinct requests have distinct keys. */
  lemma KeyIsInjective(a: Request, b: Request)
    requires '-' !in a.verb && '-' !in a.ip && '-' !in b.verb && '-' !in b.ip
    requires Key(a) == Key(b)
    ensures a == b
  {
    var k := Key(a);
    assert |a.verb| == |b.verb|;
    assert |a.ip| == |b.ip|;
    assert a.verb == k[..|a.verb|] == b.verb;
    assert a.ip == k[|k| - |a.ip|..] == b.ip;
    assert a.url == k[|a.verb| + 1..|k| - |a.ip| - 1] == b.url;
  }

  /** The closure state of one `IdempotencyAuth(...)` middleware. */
  class RateLimiter {
    const timeWindow: int
    const maxRequests: int
    var cache: map<string, Entry>

    /** `IdempotencyAuth(timeWindow = 10000, maxRequests = 10)`. */
    constructor (timeWindow: int := DefaultTimeWindow, maxRequests: int := DefaultMaxRequests)
      ensures this.timeWindow == timeWindow && this.maxRequests == maxRequests
      ensures cache == map[]
    {
      this.timeWindow, this.maxRequests := timeWindow, maxRequests;
      cache := map[];
    }

    /** `middleware(req, res, next)` at time `now`. */
    method Middleware(req: Request, now: int) returns (d: Decision)
      modifies this
      ensures (d, cache) == Step(old(cache), Key(req), now, timeWindow, maxRequests)
    {
      var key := Key(req);
      if key in cache {
        var entry := cache[key];
        if now - entry.timestamp < timeWindow {
          if entry.count >= maxRequests {
            return TooManyRequests(429, "Too Many Requests", CeilDiv1000(entry.timestamp + timeWindow - now));
          }
          cache := cache[key := entry.(count := entry.count + 1)];
        } else {
          cache := cache[key := Entry(now, 1)];
        }
      } else {
        cache := cache[key := Entry(now, 1)];
      }
      d := Next;
    }

    /** `cleanupCache` at time `now`: walks the entries and deletes the expired ones. */
    method CleanupCache(now: int)
      modifies this
      ensures cache == Cleanup(old(cache), now, timeWindow)
    {
      var pending := cache.Keys;
      while pending != {}
        invariant pending <= old(cache).Keys
        invariant forall k :: k in cache <==>
          k in old(cache) && (k in pending || !Expired(old(cache)[k], now, timeWindow))
        invariant forall k :: k in cache ==> cache[k] == old(cache)[k]
        decreases pending
      {
        var key :| key in pending;
        if Expired(cache[key], now, timeWindow) {
          cache := cache - {key};
        }
        pending := pending - {key};
      }
    }
  }
}
