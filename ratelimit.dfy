/** backend/internal/api/middleware/ratelimit.go: a sliding-window limiter
    per client ip. Times are whole seconds; the clock and the client ip are
    parameters. */
module RateLimit {
  import opened Common

  /** The visits still inside the window at `now`: those at most `window`
      old (a visit exactly one window old is kept), in their order. */
  function Recent(visits: seq<int>, now: int, window: int): seq<int>
  {
    if visits == [] then []
    else
      var last := visits[|visits| - 1];
      Recent(visits[..|visits| - 1], now, window) + (if now - last <= window then [last] else [])
  }

  /** A visit is kept iff it was recorded and is at most one window old. */
  lemma {:induction false} RecentExactly(visits: seq<int>, now: int, window: int)
    ensures forall v :: v in Recent(visits, now, window) <==> v in visits && now - v <= window
    ensures |Recent(visits, now, window)| <= |visits|
  {
    if visits != [] {
      var n := |visits|;
      RecentExactly(visits[..n - 1], now, window);
      assert visits == visits[..n - 1] + [visits[n - 1]];
    }
  }

  /** What the middleware does with a request. */
  datatype Response = Abort(status: int, error: string) | Next

  class RateLimiter {
    /** ip -> recorded visits, oldest first. */
    var visits: map<string, seq<int>>
    const limit: int
    const window: int

    /** No ip ever holds more visits than the limit (none when the limit is
        not positive). */
    ghost predicate Valid()
      reads this
    {
      forall ip :: ip in visits ==> |visits[ip]| <= limit
    }

    constructor (limit: int, window: int)
      ensures Valid() && visits == map[] && this.limit == limit && this.window == window
    {
      visits := map[];
      this.limit := limit;
      this.window := window;
    }

    /** Admits the request iff fewer than `limit` of the ip's visits are
        inside the window. A refused request leaves the ip's visits as they
        were, unpruned; an admitted one stores the visits inside the window
        followed by `now`. Other ips are never touched. */
    method Allow(ip: string, now: int) returns (allowed: bool)
      requires Valid()
      modifies this
      ensures Valid()
      ensures allowed <==> |Recent(Entries(old(visits), ip), now, window)| < limit
      ensures !allowed ==> visits == old(visits)
      ensures allowed ==> visits == old(visits)[ip := Recent(Entries(old(visits), ip), now, window) + [now]]
    {
      var history := Entries(visits, ip);
      var recent := [];
      for i := 0 to |history|
        invariant recent == Recent(history[..i], now, window)
      {
        assert history[..i + 1][..i] == history[..i];
        if now - history[i] <= window {
          recent := recent + [history[i]];
        }
      }
      assert history[..|history|] == history;
      if |recent| >= limit {
        return false;
      }
      recent := recent + [now];
      visits := visits[ip := recent];
      allowed := true;
    }

    /** 429 "Too many requests" exactly when the limiter refuses; otherwise
        the request goes on. */
    method Handle(ip: string, now: int) returns (resp: Response)
      requires Valid()
      modifies this
      ensures Valid()
      ensures resp.Abort? <==> |Recent(Entries(old(visits), ip), now, window)| >= limit
      ensures resp.Abort? ==> resp == Abort(429, "Too many requests") && visits == old(visits)
      ensures resp.Next? ==> visits == old(visits)[ip := Recent(Entries(old(visits), ip), now, window) + [now]]
    {
      var ok := Allow(ip, now);
      if !ok {
        return Abort(429, "Too many requests");
      }
      resp := Next;
    }
  }

  /** With a limit that is not positive every request is refused, on a fresh
      limiter and after any number of earlier requests. */
  method NonPositiveLimitRefusesAll(limit: int, window: int, requests: seq<(string, int)>)
    returns (outcomes: seq<bool>)
    requires limit <= 0
    ensures |outcomes| == |requests|
    ensures forall j :: 0 <= j < |outcomes| ==> !outcomes[j]
  {
    var rl := new RateLimiter(limit, window);
    outcomes := [];
    for i := 0 to |requests|
      invariant rl.Valid() && rl.limit == limit
      invariant |outcomes| == i
      invariant forall j :: 0 <= j < i ==> !outcomes[j]
    {
      var ok := rl.Allow(requests[i].0, requests[i].1);
      outcomes := outcomes + [ok];
    }
  }
}
