/** The best-effort, in-memory, fixed-window rate limiter: one counter per key
    (prefix, client address, path), each counting the requests of the current window.
    The clock is a parameter `now` (milliseconds). */
module RateLimit {
  import opened Common
  import Strings

  datatype Counter = Counter(count: int, resetAt: int)

  datatype Options = Options(windowMs: int, max: int, keyPrefix: Option<string>)

  /** The X-RateLimit-* headers (as numbers; the source renders each with `String`), and
      Retry-After when present. */
  datatype Headers = Headers(limit: int, remaining: int, reset: int, retryAfter: Option<int>)

  datatype Decision = Decision(blocked: bool, headers: Headers, retryAfter: Option<int>)

  /** The client address: the trimmed first element of X-Forwarded-For when that header is
      non-empty (or "unknown" when that element is blank); otherwise the User-Agent header,
      or "unknown". */
  function ClientIp(forwardedFor: Option<string>, userAgent: Option<string>): (ip: string)
    ensures ip != ""
    ensures Truthy(forwardedFor) && Strings.Trim(Strings.FirstField(forwardedFor.value)) != "" ==>
              ip == Strings.Trim(Strings.FirstField(forwardedFor.value)) && ',' !in ip
    ensures Truthy(forwardedFor) && Strings.Trim(Strings.FirstField(forwardedFor.value)) == "" ==>
              ip == "unknown"
    ensures !Truthy(forwardedFor) && Truthy(userAgent) ==> ip == userAgent.value
    ensures !Truthy(forwardedFor) && !Truthy(userAgent) ==> ip == "unknown"
  {
    if Truthy(forwardedFor) then
      var first := Strings.Trim(Strings.FirstField(forwardedFor.value));
      ghost var i :| Strings.SliceWithSpaceAround(Strings.FirstField(forwardedFor.value), first, i);
      assert forall k :: 0 <= k < |first| ==> first[k] == Strings.FirstField(forwardedFor.value)[i + k];
      OrElse(Some(first), "unknown")
    else OrElse(userAgent, "unknown")
  }

  /** The store key `prefix:ip:path`, the prefix defaulting to "rl". */
  function Key(keyPrefix: Option<string>, ip: string, path: string): (key: string)
    ensures Truthy(keyPrefix) ==> key == keyPrefix.value + ":" + ip + ":" + path
    ensures !Truthy(keyPrefix) ==> key == "rl:" + ip + ":" + path
  {
    OrElse(keyPrefix, "rl") + ":" + ip + ":" + path
  }

  /** The counter after one more request at time `now`: a new window when there was no
      counter or its window ended strictly before `now`; otherwise one more request in the
      current window, whether or not the window is already over its limit. */
  function NextCounter(current: Option<Counter>, now: int, windowMs: int): (c: Counter)
    ensures current.None? || current.value.resetAt < now ==> c == Counter(1, now + windowMs)
    ensures current.Some? && now <= current.value.resetAt ==>
              c.count == current.value.count + 1 && c.resetAt == current.value.resetAt
  {
    if current.None? || current.value.resetAt < now then Counter(1, now + windowMs)
    else current.value.(count := current.value.count + 1)
  }

  /** `Math.ceil(x / 1000)` for an integer `x`. */
  function CeilDiv1000(x: int): (r: int)
    ensures (r - 1) * 1000 < x <= r * 1000
  {
    -((-x) / 1000)
  }

  /** The answer for the counter `entry` after the current request. */
  function Decide(entry: Counter, max: int, now: int): (d: Decision)
    ensures d.blocked <==> entry.count > max
    ensures d.headers.remaining >= 0
    ensures d.headers.remaining == if max - entry.count > 0 then max - entry.count else 0
    ensures d.headers.limit == max
    ensures d.headers.reset * 1000 <= entry.resetAt < (d.headers.reset + 1) * 1000
    ensures d.retryAfter.Some? <==> d.blocked
    ensures d.headers.retryAfter == d.retryAfter
    ensures d.blocked ==> d.retryAfter.value >= 0
    ensures d.blocked ==> (d.retryAfter.value == 0 <==> entry.resetAt <= now)
    ensures d.blocked && entry.resetAt > now ==>
              (d.retryAfter.value - 1) * 1000 < entry.resetAt - now <= d.retryAfter.value * 1000
  {
    var remaining := if max - entry.count > 0 then max - entry.count else 0;
    var blocked := entry.count > max;
    var retry :=
      if blocked then
        var secs := CeilDiv1000(entry.resetAt - now);
        Some(if secs > 0 then secs else 0)
      else None;
    Decision(blocked, Headers(max, remaining, entry.resetAt / 1000, retry), retry)
  }

  /** A counter after a run of requests at the given times, one after the other. */
  function AfterRequests(current: Option<Counter>, times: seq<int>, windowMs: int): Option<Counter>
    decreases |times|
  {
    if times == [] then current
    else AfterRequests(Some(NextCounter(current, times[0], windowMs)), times[1..], windowMs)
  }

  /** Requests that all fall within a window only add to its count. */
  lemma {:induction false} RequestsWithinWindow(count: int, resetAt: int, times: seq<int>, windowMs: int)
    requires forall k :: 0 <= k < |times| ==> times[k] <= resetAt
    ensures AfterRequests(Some(Counter(count, resetAt)), times, windowMs)
            == Some(Counter(count + |times|, resetAt))
    decreases |times|
  {
    if times != [] {
      RequestsWithinWindow(count + 1, resetAt, times[1..], windowMs);
    }
  }

  /** A burst of requests for a fresh key, all within `windowMs` of the first one, leaves the
      counter at the number of requests; so the `max`-th request of a window is still let
      through and the next one is blocked. */
  lemma BurstCountsEveryRequest(times: seq<int>, windowMs: int, max: int)
    requires times != []
    requires forall k :: 0 <= k < |times| ==> times[k] <= times[0] + windowMs
    ensures AfterRequests(None, times, windowMs) == Some(Counter(|times|, times[0] + windowMs))
    ensures Decide(AfterRequests(None, times, windowMs).value, max, times[|times| - 1]).blocked
            <==> |times| > max
  {
    RequestsWithinWindow(1, times[0] + windowMs, times[1..], windowMs);
  }

  /** Once a key is blocked, it stays blocked for every further request of the same window. */
  lemma BlockedUntilWindowEnds(entry: Counter, max: int, now: int, later: int, windowMs: int)
    requires Decide(entry, max, now).blocked
    requires later <= entry.resetAt
    ensures Decide(NextCounter(Some(entry), later, windowMs), max, later).blocked
  {
  }

  /** The module-level store of counters. */
  class RateLimiter {
    var store: map<string, Counter>

    constructor ()
      ensures store == map[]
    {
      store := map[];
    }

    function Lookup(key: string): (c: Option<Counter>)
      reads this
      ensures c.Some? <==> key in store
      ensures c.Some? ==> c.value == store[key]
    {
      if key in store then Some(store[key]) else None
    }

    /** `rateLimit(req, options)`: counts the request against its key and answers whether it
        is blocked. Only that key's counter changes. */
    method Check(req: HttpRequest, opts: Options, now: int) returns (d: Decision)
      modifies this
      ensures var key := Key(opts.keyPrefix, ClientIp(req.forwardedFor, req.userAgent), req.path);
              && store == old(store)[key := NextCounter(old(Lookup(key)), now, opts.windowMs)]
              && d == Decide(store[key], opts.max, now)
      ensures forall k :: k != Key(opts.keyPrefix, ClientIp(req.forwardedFor, req.userAgent), req.path) ==>
                (k in store <==> k in old(store)) && (k in old(store) ==> store[k] == old(store)[k])
    {
      var ip := ClientIp(req.forwardedFor, req.userAgent);
      var key := Key(opts.keyPrefix, ip, req.path);
      var current := Lookup(key);
      if current.None? || current.value.resetAt < now {
        store := store[key := Counter(1, now + opts.windowMs)];
      } else {
        var bumped := current.value.(count := current.value.count + 1);
        store := store[key := bumped];
      }
      d := Decide(store[key], opts.max, now);
    }
  }
}
