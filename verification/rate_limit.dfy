/** The fixed-window rate limiter guarding the authentication routes, and the
    decorator that attaches a route's limit and window to it. One counter
    document per route and client address; the counter is written before the
    limit is checked, so refused requests count too. */
module RateLimit {
  import opened Wrappers
  import opened Text

  const DefaultLimit := 5
  const DefaultWindow := 60000
  const UnknownIp := "unknown"

  /** The route metadata the guard reads: `rate-limit` and `rate-window`. */
  datatype Metadata = Metadata(limit: Option<int>, window: Option<int>)

  /** `@RateLimit(limit, window)` as written: the metadata for the limit is
      created and dropped, only the window is attached. */
  function RateLimitAsWritten(limit: int, window: int): (m: Metadata)
    ensures m.limit.None? && m.window == Some(window)
  {
    var _ := Metadata(Some(limit), None);
    Metadata(None, Some(window))
  }

  /** The decorator with both values attached. */
  function RateLimitCorrected(limit: int, window: int): (m: Metadata)
    ensures m.limit == Some(limit) && m.window == Some(window)
  {
    Metadata(Some(limit), Some(window))
  }

  /** `reflector.get('rate-limit') || 5`: an absent or zero limit is 5. */
  function EffectiveLimit(m: Metadata): (l: int)
    ensures m.limit.Some? && m.limit.value != 0 ==> l == m.limit.value
    ensures m.limit.None? || m.limit.value == 0 ==> l == DefaultLimit
  {
    if m.limit.Some? && m.limit.value != 0 then m.limit.value else DefaultLimit
  }

  /** `reflector.get('rate-window') || 60000`. */
  function EffectiveWindow(m: Metadata): (w: int)
    ensures m.window.Some? && m.window.value != 0 ==> w == m.window.value
    ensures m.window.None? || m.window.value == 0 ==> w == DefaultWindow
  {
    if m.window.Some? && m.window.value != 0 then m.window.value else DefaultWindow
  }

  /** The request fields the guard reads; an empty string is an absent one. */
  datatype HttpRequest = HttpRequest(ip: string, remoteAddress: string, forwardedFor: string, routePath: string, url: string)

  /** `ip || remoteAddress || x-forwarded-for || 'unknown'`. */
  function ClientIp(req: HttpRequest): (ip: string)
    ensures ip != ""
    ensures req.ip != "" ==> ip == req.ip
    ensures req.ip == "" && req.remoteAddress != "" ==> ip == req.remoteAddress
    ensures req.ip == "" && req.remoteAddress == "" && req.forwardedFor != "" ==> ip == req.forwardedFor
    ensures req.ip == "" && req.remoteAddress == "" && req.forwardedFor == "" ==> ip == UnknownIp
  {
    if req.ip != "" then req.ip
    else if req.remoteAddress != "" then req.remoteAddress
    else if req.forwardedFor != "" then req.forwardedFor
    else UnknownIp
  }

  /** `route?.path || url`. */
  function Endpoint(req: HttpRequest): (e: string)
    ensures e == "" <==> req.routePath == "" && req.url == ""
    ensures e in {req.routePath, req.url}
  {
    if req.routePath != "" then req.routePath else req.url
  }

  const KeyPrefix := "rate_limit:"

  /** The counter document's id. */
  function Key(endpoint: string, ip: string): (k: string)
    ensures |k| == |KeyPrefix| + |endpoint| + 1 + |ip|
    ensures k[..|KeyPrefix|] == KeyPrefix
    ensures k[|KeyPrefix|..|KeyPrefix| + |endpoint|] == endpoint
    ensures k[|KeyPrefix| + |endpoint|] == ':'
    ensures k[|KeyPrefix| + |endpoint| + 1..] == ip
  {
    KeyPrefix + endpoint + ":" + ip
  }

  /** A counter document. */
  datatype Counter = Counter(attempts: int, firstAttempt: int, lastAttempt: int, endpoint: string, ip: string)

  type Counters = map<string, Counter>

  datatype Decision = Allow | Reject(message: string)

  /** `Math.ceil(ms / 1000)` for a positive `ms`. */
  function CeilSeconds(ms: int): (s: nat)
    requires ms > 0
    ensures (s - 1) * 1000 < ms <= s * 1000
  {
    (ms + 999) / 1000
  }

  function RejectMessage(timeLeft: int): string
    requires timeLeft > 0
  {
    "Rate limit exceeded. Try again in " + NatToString(CeilSeconds(timeLeft)) + " seconds."
  }

  /** The counter after a request at `now`: a fresh window when there is no
      counter or the old window has run out (strictly), otherwise one more
      attempt in the same window. */
  function NextCounter(prev: Option<Counter>, window: int, now: int, endpoint: string, ip: string): (c: Counter)
    ensures c.lastAttempt == now && c.endpoint == endpoint && c.ip == ip
    ensures prev.None? ==> c.attempts == 1 && c.firstAttempt == now
    ensures prev.Some? && now - prev.value.firstAttempt > window ==> c.attempts == 1 && c.firstAttempt == now
    ensures prev.Some? && now - prev.value.firstAttempt <= window ==>
      c.attempts == prev.value.attempts + 1 && c.firstAttempt == prev.value.firstAttempt
  {
    match prev
    case None => Counter(1, now, now, endpoint, ip)
    case Some(o) =>
      if now - o.firstAttempt > window then Counter(1, now, now, endpoint, ip)
      else Counter(o.attempts + 1, o.firstAttempt, now, endpoint, ip)
  }

  /** `canActivate`. `readFails` stands for the store failing, which lets the
      request through with nothing written. */
  function CanActivate(counters: Counters, m: Metadata, req: HttpRequest, now: int, readFails: bool)
    : (r: (Decision, Counters))
    ensures Endpoint(req) == "" || readFails ==> r == (Allow, counters)
    ensures Endpoint(req) != "" && !readFails ==>
      var key := Key(Endpoint(req), ClientIp(req));
      var c := NextCounter(if key in counters then Some(counters[key]) else None, EffectiveWindow(m), now, Endpoint(req), ClientIp(req));
      && r.1 == counters[key := c]
      && (r.0.Reject? <==> c.attempts > EffectiveLimit(m) && EffectiveWindow(m) - (now - c.firstAttempt) > 0)
      && (r.0.Reject? ==> r.0.message == RejectMessage(EffectiveWindow(m) - (now - c.firstAttempt)))
  {
    var ip := ClientIp(req);
    var endpoint := Endpoint(req);
    if endpoint == "" || readFails then (Allow, counters)
    else
      var key := Key(endpoint, ip);
      var window := EffectiveWindow(m);
      var c := NextCounter(if key in counters then Some(counters[key]) else None, window, now, endpoint, ip);
      var counters' := counters[key := c];
      if c.attempts > EffectiveLimit(m) then
        var timeLeft := window - (now - c.firstAttempt);
        if timeLeft > 0 then (Reject(RejectMessage(timeLeft)), counters') else (Allow, counters')
      else (Allow, counters')
  }

  /** At exactly one window after the first attempt the request goes
      through: the window has not run out, and no time is left to wait. */
  lemma WindowEdgeIsAllowed(counters: Counters, m: Metadata, req: HttpRequest, now: int)
    requires Endpoint(req) != ""
    requires Key(Endpoint(req), ClientIp(req)) in counters
    requires now - counters[Key(Endpoint(req), ClientIp(req))].firstAttempt == EffectiveWindow(m)
    ensures CanActivate(counters, m, req, now, false).0 == Allow
    ensures CanActivate(counters, m, req, now, false).1[Key(Endpoint(req), ClientIp(req))].attempts
      == counters[Key(Endpoint(req), ClientIp(req))].attempts + 1
  {
  }

  /** The decisions for the same request repeated at the given instants. */
  function Decisions(counters: Counters, m: Metadata, req: HttpRequest, times: seq<int>): (ds: seq<Decision>)
    ensures |ds| == |times|
    decreases |times|
  {
    if |times| == 0 then []
    else
      var (d, counters') := CanActivate(counters, m, req, times[0], false);
      [d] + Decisions(counters', m, req, times[1..])
  }

  /** All instants fall strictly inside the window opened at `start`. */
  predicate InsideWindow(times: seq<int>, start: int, window: int) {
    forall i :: 0 <= i < |times| ==> start <= times[i] && times[i] - start < window
  }

  /** The counter for this request holds `attempts` attempts of the window
      opened at `start`. */
  predicate CountedSoFar(counters: Counters, key: string, attempts: nat, start: int) {
    if attempts == 0 then key !in counters
    else key in counters && counters[key].attempts == attempts && counters[key].firstAttempt == start
  }

  /** Within one window, after `done` earlier requests, the i-th further
      request is let through exactly when it is among the first `limit`. */
  lemma {:induction false} BurstFrom(counters: Counters, m: Metadata, req: HttpRequest, times: seq<int>, done: nat, start: int)
    requires Endpoint(req) != ""
    requires CountedSoFar(counters, Key(Endpoint(req), ClientIp(req)), done, start)
    requires |times| > 0 && done == 0 ==> times[0] == start
    requires InsideWindow(times, start, EffectiveWindow(m))
    ensures forall i :: 0 <= i < |times| ==>
      (Decisions(counters, m, req, times)[i] == Allow <==> done + i < EffectiveLimit(m))
    decreases |times|
  {
    if |times| > 0 {
      var key := Key(Endpoint(req), ClientIp(req));
      var (d, counters') := CanActivate(counters, m, req, times[0], false);
      assert counters'[key].attempts == done + 1 && counters'[key].firstAttempt == start;
      assert d == Allow <==> done < EffectiveLimit(m);
      assert InsideWindow(times[1..], start, EffectiveWindow(m));
      BurstFrom(counters', m, req, times[1..], done + 1, start);
      var ds := Decisions(counters, m, req, times);
      assert ds == [d] + Decisions(counters', m, req, times[1..]);
      forall i | 0 <= i < |times|
        ensures ds[i] == Allow <==> done + i < EffectiveLimit(m)
      {
        if i > 0 {
          assert ds[i] == Decisions(counters', m, req, times[1..])[i - 1];
        }
      }
    }
  }

  /** A burst of requests inside one window starting from no counter: the
      first `limit` pass and every later one is refused. */
  lemma BurstIsCapped(counters: Counters, m: Metadata, req: HttpRequest, times: seq<int>)
    requires Endpoint(req) != "" && Key(Endpoint(req), ClientIp(req)) !in counters
    requires |times| > 0 && InsideWindow(times, times[0], EffectiveWindow(m))
    ensures forall i :: 0 <= i < |times| ==>
      (Decisions(counters, m, req, times)[i] == Allow <==> i < EffectiveLimit(m))
  {
    BurstFrom(counters, m, req, times, 0, times[0]);
  }

  /** As written, the decorator's limit never arrives: a route declared with
      a limit of 3 lets a fourth and a fifth request through within its
      window, and one declared with 10 refuses the sixth. */
  lemma DeclaredLimitIsIgnored(counters: Counters, req: HttpRequest)
    requires Endpoint(req) != "" && Key(Endpoint(req), ClientIp(req)) !in counters
    ensures Decisions(counters, RateLimitAsWritten(3, 300000), req, [0, 1, 2, 3, 4])[3] == Allow
    ensures Decisions(counters, RateLimitAsWritten(3, 300000), req, [0, 1, 2, 3, 4])[4] == Allow
    ensures Decisions(counters, RateLimitAsWritten(10, 60000), req, [0, 1, 2, 3, 4, 5])[5] != Allow
  {
    var three, ten := RateLimitAsWritten(3, 300000), RateLimitAsWritten(10, 60000);
    var five, six: seq<int> := [0, 1, 2, 3, 4], [0, 1, 2, 3, 4, 5];
    assert EffectiveLimit(three) == DefaultLimit && EffectiveWindow(three) == 300000;
    assert EffectiveLimit(ten) == DefaultLimit && EffectiveWindow(ten) == 60000;
    assert InsideWindow(five, five[0], EffectiveWindow(three));
    assert InsideWindow(six, six[0], EffectiveWindow(ten));
    BurstIsCapped(counters, three, req, five);
    BurstIsCapped(counters, ten, req, six);
  }

  /** With both values attached, a burst inside the declared window passes
      exactly the declared number of requests. */
  lemma DeclaredLimitIsEnforced(counters: Counters, limit: int, window: int, req: HttpRequest, times: seq<int>)
    requires limit != 0 && window != 0
    requires Endpoint(req) != "" && Key(Endpoint(req), ClientIp(req)) !in counters
    requires |times| > 0 && InsideWindow(times, times[0], window)
    ensures forall i :: 0 <= i < |times| ==>
      (Decisions(counters, RateLimitCorrected(limit, window), req, times)[i] == Allow <==> i < limit)
  {
    BurstIsCapped(counters, RateLimitCorrected(limit, window), req, times);
  }
}
