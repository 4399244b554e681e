/** The fixed-window, per-client rate limiter that the chat and generate
    endpoints each keep (`checkRateLimit` in app/api/chat/route.ts and
    app/api/generate/route.ts). The clock reading `now` is a parameter. */
module RateLimit {
  import opened Wrappers
  import opened Js

  /** One minute, in milliseconds. */
  const RATE_WINDOW: int := 60000

  /** `{ count, resetAt }`. */
  datatype RateRecord = RateRecord(count: nat, resetAt: int)

  /** Whether the request may proceed, and the table afterwards. */
  datatype Decision = Decision(allowed: bool, counts: map<string, RateRecord>)

  /** `x-forwarded-for || x-real-ip || "unknown"`. */
  function ClientKey(forwardedFor: Option<string>, realIp: Option<string>): (k: string)
    ensures Truthy(forwardedFor) ==> k == forwardedFor.value
    ensures !Truthy(forwardedFor) && Truthy(realIp) ==> k == realIp.value
    ensures !Truthy(forwardedFor) && !Truthy(realIp) ==> k == "unknown"
    ensures k != ""
  {
    StrOr(OrElse(forwardedFor, realIp), "unknown")
  }

  /** One call of `checkRateLimit(ip)` at time `now`. A missing or expired
      record (strictly past `resetAt`) opens a new window with count 1; a
      full window denies without touching the table; otherwise the count
      goes up by one. */
  function Check(counts: map<string, RateRecord>, ip: string, now: int, limit: nat): (d: Decision)
    ensures ip in d.counts
    ensures !d.allowed ==> d.counts == counts
    ensures forall k :: k != ip ==> (k in d.counts <==> k in counts)
    ensures forall k :: k != ip && k in counts ==> d.counts[k] == counts[k]
    ensures (ip !in counts || now > counts[ip].resetAt) ==> d.allowed && d.counts[ip] == RateRecord(1, now + RATE_WINDOW)
    ensures ip in counts && now <= counts[ip].resetAt ==>
      && (d.allowed <==> counts[ip].count < limit)
      && (d.allowed ==> d.counts[ip] == RateRecord(counts[ip].count + 1, counts[ip].resetAt))
  {
    if ip !in counts || now > counts[ip].resetAt then
      Decision(true, counts[ip := RateRecord(1, now + RATE_WINDOW)])
    else if counts[ip].count >= limit then
      Decision(false, counts)
    else
      Decision(true, counts[ip := counts[ip].(count := counts[ip].count + 1)])
  }

  /** Every record of the table counts between 1 and `limit` requests. */
  predicate CountsBounded(counts: map<string, RateRecord>, limit: nat) {
    forall k :: k in counts ==> 1 <= counts[k].count <= limit
  }

  /** With a limit of at least one, a check keeps every count within
      bounds. */
  lemma CheckKeepsCountsBounded(counts: map<string, RateRecord>, ip: string, now: int, limit: nat)
    requires limit >= 1 && CountsBounded(counts, limit)
    ensures CountsBounded(Check(counts, ip, now, limit).counts, limit)
  {
    var d := Check(counts, ip, now, limit);
    forall k | k in d.counts ensures 1 <= d.counts[k].count <= limit {
      if k != ip {
        assert d.counts[k] == counts[k];
      }
    }
  }

  /** How many of the requests from `ip` at the given times are allowed. */
  function AllowedCount(counts: map<string, RateRecord>, ip: string, times: seq<int>, limit: nat): nat
    decreases |times|
  {
    if |times| == 0 then 0
    else
      var d := Check(counts, ip, times[0], limit);
      (if d.allowed then 1 else 0) + AllowedCount(d.counts, ip, times[1..], limit)
  }

  /** Inside an open window the remaining allowance is used up, request by
      request, and everything after it is denied. */
  lemma {:induction false} AllowedWithinWindow(counts: map<string, RateRecord>, ip: string, times: seq<int>, limit: nat)
    requires ip in counts && counts[ip].count <= limit
    requires forall i :: 0 <= i < |times| ==> times[i] <= counts[ip].resetAt
    ensures AllowedCount(counts, ip, times, limit) == Min(|times|, limit - counts[ip].count)
    decreases |times|
  {
    if |times| > 0 {
      var d := Check(counts, ip, times[0], limit);
      assert d.counts[ip].resetAt == counts[ip].resetAt;
      assert forall i :: 0 <= i < |times[1..]| ==> times[1..][i] == times[i + 1];
      AllowedWithinWindow(d.counts, ip, times[1..], limit);
    }
  }

  /** A window admits at most `limit` requests per key: of the requests
      that reach a fresh or expired record and all fall before the new
      window closes, exactly the first `limit` are allowed. */
  lemma AtMostLimitPerWindow(counts: map<string, RateRecord>, ip: string, times: seq<int>, limit: nat)
    requires limit >= 1 && |times| > 0
    requires ip !in counts || times[0] > counts[ip].resetAt
    requires forall i :: 0 <= i < |times| ==> times[i] <= times[0] + RATE_WINDOW
    ensures AllowedCount(counts, ip, times, limit) == Min(|times|, limit)
  {
    var d := Check(counts, ip, times[0], limit);
    assert forall i :: 0 <= i < |times[1..]| ==> times[1..][i] == times[i + 1];
    AllowedWithinWindow(d.counts, ip, times[1..], limit);
  }

  /** The limiter of one endpoint. */
  class RateLimiter {
    var requestCounts: map<string, RateRecord>
    const limit: nat

    constructor (limit: nat)
      ensures this.limit == limit && requestCounts == map[]
    {
      this.limit := limit;
      requestCounts := map[];
    }

    /** `checkRateLimit(ip)` with the clock reading `now`. */
    method CheckRateLimit(ip: string, now: int) returns (allowed: bool)
      modifies this
      ensures Decision(allowed, requestCounts) == Check(old(requestCounts), ip, now, limit)
    {
      if ip !in requestCounts || now > requestCounts[ip].resetAt {
        requestCounts := requestCounts[ip := RateRecord(1, now + RATE_WINDOW)];
        return true;
      }
      var record := requestCounts[ip];
      if record.count >= limit {
        return false;
      }
      requestCounts := requestCounts[ip := record.(count := record.count + 1)];
      return true;
    }
  }
}
