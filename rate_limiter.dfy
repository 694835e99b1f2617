/**
 * The fixed-window per-client limiter. The backend runs two independent
 * copies of it: `rateLimiter` in front of uploads (`rateLimitMap`) and
 * `authRateLimit` in front of the admin login routes (`authAttempts`). Each
 * keeps, per client address, a request count and the end of the current
 * window, updates that entry in place on every request, and drops stale
 * entries from a one-minute timer.
 *
 * `Next` is the pure specification of one request; `FixedWindowLimiter` is
 * the mutable map the middleware updates, proved against `Next`.
 */
module RateLimit {
  import opened Wrappers
  import opened Text
  import opened Arith

  /** 15 minutes in milliseconds: the window of both limiters. */
  const WindowMs: int := 15 * 60 * 1000
  /** Requests allowed per window by both limiters. */
  const MaxRequests: int := 10

  /** The window length and request budget of one limiter. */
  datatype Policy = Policy(windowMs: int, maxRequests: int) {
    predicate Valid() {
      windowMs > 0 && maxRequests >= 1
    }
  }

  /** The upload limiter's policy. */
  const Uploads: Policy := Policy(WindowMs, MaxRequests)

  /** `req.ip || req.connection.remoteAddress`; an absent address is a key of its own. */
  type ClientKey = Option<String>

  function ClientOf(ip: Option<String>, remoteAddress: Option<String>): ClientKey {
    Or(ip, remoteAddress)
  }

  /** One map entry: `{ count, resetTime }`. */
  datatype Window = Window(count: int, resetTime: int)

  datatype Decision = Allow | Reject(retryAfter: int)

  /** The decision on one request and the entries it leaves behind. */
  datatype Step = Step(decision: Decision, entries: map<ClientKey, Window>)

  /** `Math.ceil(a / b)` for a positive divisor. */
  function CeilDiv(a: int, b: int): (r: int)
    requires b > 0
    ensures (r - 1) * b < a <= r * b
  {
    -((-a) / b)
  }

  /** Every stored count lies in 1..maxRequests. */
  predicate Bounded(p: Policy, m: map<ClientKey, Window>) {
    forall k :: k in m ==> 1 <= m[k].count <= p.maxRequests
  }

  /** No stored window ends later than one window length after `now`. */
  predicate Recent(p: Policy, m: map<ClientKey, Window>, now: int) {
    forall k :: k in m ==> m[k].resetTime <= now + p.windowMs
  }

  /**
   * One request from `key` at `now`: a first request or one after the window
   * has ended (strictly) opens a new window with count 1; otherwise the
   * request is counted while the count is below the budget and rejected,
   * with nothing changed, once it has reached it.
   */
  function Next(p: Policy, m: map<ClientKey, Window>, key: ClientKey, now: int): (r: Step)
    requires p.Valid()
    ensures r.entries.Keys == m.Keys + {key}
    ensures forall k :: k in m && k != key ==> r.entries[k] == m[k]
    ensures r.decision.Reject? <==> key in m && now <= m[key].resetTime && m[key].count >= p.maxRequests
    ensures r.decision.Reject? ==> r.entries == m
    ensures r.decision.Allow? && (key !in m || now > m[key].resetTime) ==> r.entries[key] == Window(1, now + p.windowMs)
    ensures r.decision.Allow? && key in m && now <= m[key].resetTime ==>
      r.entries[key] == Window(m[key].count + 1, m[key].resetTime)
    ensures Bounded(p, m) ==> Bounded(p, r.entries)
    ensures Recent(p, m, now) ==> Recent(p, r.entries, now)
  {
    if key !in m then
      Step(Allow, m[key := Window(1, now + p.windowMs)])
    else if now > m[key].resetTime then
      Step(Allow, m[key := Window(1, now + p.windowMs)])
    else if m[key].count >= p.maxRequests then
      Step(Reject(CeilDiv(m[key].resetTime - now, 1000)), m)
    else
      Step(Allow, m[key := Window(m[key].count + 1, m[key].resetTime)])
  }

  /**
   * A rejection asks the client to wait between 0 and the window length in
   * whole seconds: 0..900 for both limiters of the backend.
   */
  lemma RetryAfterBounds(p: Policy, m: map<ClientKey, Window>, key: ClientKey, now: int)
    requires p.Valid() && Recent(p, m, now)
    ensures Next(p, m, key, now).decision.Reject? ==>
      0 <= Next(p, m, key, now).decision.retryAfter <= CeilDiv(p.windowMs, 1000)
  {
    var r := Next(p, m, key, now);
    if r.decision.Reject? {
      var w := m[key].resetTime - now;
      assert 0 <= w <= p.windowMs;
      CeilDivMonotone(w, p.windowMs, 1000);
      CeilDivMonotone(0, w, 1000);
    }
  }

  lemma CeilDivMonotone(a: int, b: int, d: int)
    requires d > 0 && a <= b
    ensures CeilDiv(a, d) <= CeilDiv(b, d)
  {
    var ra, rb := CeilDiv(a, d), CeilDiv(b, d);
    MulCancel(ra - 1, rb, d);
  }

  /** The backend's value: 900 seconds. */
  lemma UploadRetryAfterAtMost900()
    ensures CeilDiv(Uploads.windowMs, 1000) == 900
  {
  }

  /** The decisions on a sequence of requests from one client, each applied to the state the previous one left. */
  function Replay(p: Policy, m: map<ClientKey, Window>, key: ClientKey, times: seq<int>): (r: seq<Decision>)
    requires p.Valid()
    ensures |r| == |times|
    decreases |times|
  {
    if times == [] then []
    else
      var s := Next(p, m, key, times[0]);
      [s.decision] + Replay(p, s.entries, key, times[1..])
  }

  /** The first request of a burst that finds no open window is allowed and opens one. */
  lemma BurstOpensWindow(p: Policy, m: map<ClientKey, Window>, key: ClientKey, times: seq<int>)
    requires p.Valid() && times != []
    requires key !in m || times[0] > m[key].resetTime
    ensures Replay(p, m, key, times) ==
      [Allow] + Replay(p, m[key := Window(1, times[0] + p.windowMs)], key, times[1..])
  {
    assert Next(p, m, key, times[0]) == Step(Allow, m[key := Window(1, times[0] + p.windowMs)]);
  }

  /**
   * Inside an open window that already holds `count` requests, the i-th
   * further request is allowed exactly when count + i is below the budget.
   */
  lemma {:induction false} ReplayInWindow(p: Policy, m: map<ClientKey, Window>, key: ClientKey, times: seq<int>)
    requires p.Valid() && key in m && m[key].count >= 1
    requires forall i :: 0 <= i < |times| ==> times[i] <= m[key].resetTime
    ensures forall i :: 0 <= i < |times| ==>
      (Replay(p, m, key, times)[i].Allow? <==> m[key].count + i < p.maxRequests)
    decreases |times|
  {
    if times != [] {
      var s := Next(p, m, key, times[0]);
      ReplayInWindow(p, s.entries, key, times[1..]);
      var r := Replay(p, m, key, times);
      assert r == [s.decision] + Replay(p, s.entries, key, times[1..]);
      forall i | 1 <= i < |times|
        ensures r[i].Allow? <==> m[key].count + i < p.maxRequests
      {
        assert r[i] == Replay(p, s.entries, key, times[1..])[i - 1];
        assert times[1..][i - 1] == times[i];
      }
    }
  }

  /** Putting one allowed decision in front of a run shifts the run's allowed prefix by one. */
  lemma AllowedPrefixShift(r: seq<Decision>, rest: seq<Decision>, budget: int)
    requires r == [Allow] + rest
    requires forall j :: 0 <= j < |rest| ==> (rest[j].Allow? <==> 1 + j < budget)
    requires 1 <= budget
    ensures forall i :: 0 <= i < |r| ==> (r[i].Allow? <==> i < budget)
  {
    forall i | 0 < i < |r| ensures r[i].Allow? <==> i < budget {
      assert r[i] == rest[i - 1];
    }
  }

  /**
   * A burst of requests opening a new window and staying inside it: the
   * first `maxRequests` are allowed, every later one is rejected.
   */
  lemma BurstAllowsExactlyBudget(p: Policy, m: map<ClientKey, Window>, key: ClientKey, times: seq<int>)
    requires p.Valid() && times != []
    requires key !in m || times[0] > m[key].resetTime
    requires forall i :: 0 <= i < |times| ==> times[i] <= times[0] + p.windowMs
    ensures forall i :: 0 <= i < |times| ==> (Replay(p, m, key, times)[i].Allow? <==> i < p.maxRequests)
  {
    var e := m[key := Window(1, times[0] + p.windowMs)];
    var t := times[1..];
    BurstOpensWindow(p, m, key, times);
    forall i | 0 <= i < |t| ensures t[i] <= e[key].resetTime {
      assert t[i] == times[i + 1];
    }
    ReplayInWindow(p, e, key, t);
    AllowedPrefixShift(Replay(p, m, key, times), Replay(p, e, key, t), p.maxRequests);
  }

  /** The entries the one-minute timer keeps: those whose window has not ended. */
  function Swept(m: map<ClientKey, Window>, now: int): (r: map<ClientKey, Window>)
    ensures r.Keys <= m.Keys
    ensures forall k :: k in m && now <= m[k].resetTime ==> k in r && r[k] == m[k]
    ensures forall k :: k in m && now > m[k].resetTime ==> k !in r
  {
    map k | k in m && !(now > m[k].resetTime) :: m[k]
  }

  /**
   * Sweeping is invisible to clients: after a sweep at `swept`, a request at
   * any later time gets the same decision and leaves the same entry for its
   * client as it would have without the sweep, and the entries of other
   * clients are still the swept ones.
   */
  lemma SweepTransparent(p: Policy, m: map<ClientKey, Window>, key: ClientKey, swept: int, now: int)
    requires p.Valid() && swept <= now
    ensures Next(p, Swept(m, swept), key, now).decision == Next(p, m, key, now).decision
    ensures Next(p, Swept(m, swept), key, now).entries[key] == Next(p, m, key, now).entries[key]
    ensures Next(p, Swept(m, swept), key, now).entries == Swept(m, swept)[key := Next(p, m, key, now).entries[key]]
      || Next(p, m, key, now).decision.Reject?
  {
  }

  /** The text of the upload limiter's 429 body: `Max ${MAX_REQUESTS} uploads per ${WINDOW_MS / 60000} minutes`. */
  function UploadLimitMessage(): String {
    "Max " + IntToString(MaxRequests) + " uploads per " + IntToString(WindowMs / 60000) + " minutes"
  }

  /** With 10 requests per 15-minute window the message reads "Max 10 uploads per 15 minutes". */
  lemma UploadLimitMessageText()
    ensures UploadLimitMessage() == "Max 10 uploads per 15 minutes"
  {
  }

  /** The upload limiter's outcome: pass on to the handler, or a 429 body. */
  datatype Gate = Proceed | TooManyRequests(error: String, message: String, retryAfter: int)

  /** `rateLimiter`'s response for a decision of the upload limiter. */
  function UploadGate(d: Decision): (g: Gate)
    ensures g.Proceed? <==> d.Allow?
    ensures g.TooManyRequests? ==>
      g.error == "Rate limit exceeded" && g.message == UploadLimitMessage() && g.retryAfter == d.retryAfter
  {
    match d
    case Allow => Proceed
    case Reject(retryAfter) => TooManyRequests("Rate limit exceeded", UploadLimitMessage(), retryAfter)
  }

  /** One limiter's `Map` from client address to its window, updated in place. */
  class FixedWindowLimiter {
    const policy: Policy
    var entries: map<ClientKey, Window>

    constructor (p: Policy)
      requires p.Valid()
      ensures policy == p && entries == map[]
    {
      policy := p;
      entries := map[];
    }

    /** The middleware body: decide on one request and update the client's entry. */
    method Hit(key: ClientKey, now: int) returns (d: Decision)
      requires policy.Valid()
      modifies this
      ensures Step(d, entries) == Next(policy, old(entries), key, now)
    {
      if key !in entries {
        entries := entries[key := Window(1, now + policy.windowMs)];
        return Allow;
      }
      var limit := entries[key];
      if now > limit.resetTime {
        entries := entries[key := limit.(count := 1, resetTime := now + policy.windowMs)];
        return Allow;
      }
      if limit.count >= policy.maxRequests {
        return Reject(CeilDiv(limit.resetTime - now, 1000));
      }
      entries := entries[key := limit.(count := limit.count + 1)];
      d := Allow;
    }

    /** The one-minute timer: deletes every entry whose window has ended. */
    method Sweep(now: int)
      modifies this
      ensures entries == Swept(old(entries), now)
    {
      var keys := entries.Keys;
      while keys != {}
        invariant keys <= old(entries).Keys
        invariant forall k :: k in entries <==> k in old(entries) && (k in keys || now <= old(entries)[k].resetTime)
        invariant forall k :: k in entries ==> entries[k] == old(entries)[k]
        decreases keys
      {
        var k :| k in keys;
        if now > entries[k].resetTime {
          entries := entries - {k};
        }
        keys := keys - {k};
      }
    }
  }

  /** `rateLimiter`: the upload limiter in front of the upload route. */
  method RateLimiter(limiter: FixedWindowLimiter, ip: Option<String>, remoteAddress: Option<String>, now: int)
    returns (g: Gate)
    requires limiter.policy == Uploads
    modifies limiter
    ensures var s := Next(Uploads, old(limiter.entries), ClientOf(ip, remoteAddress), now);
      g == UploadGate(s.decision) && limiter.entries == s.entries
  {
    var d := limiter.Hit(ClientOf(ip, remoteAddress), now);
    g := UploadGate(d);
  }
}
