/** The table-scan rate limit: one bucket per tenant, in thousandths of a token, which the
    refill of two tokens a second adds in whole numbers per millisecond. */
module TokenBucket {
  const CAPACITY := 20000
  const COST := 1000
  const REFILL_PER_MS := 2

  type Tenant = string

  datatype Bucket = Bucket(tokens: int, lastRefillAt: int)

  datatype Decision = Accepted | RateLimited(retryAfterMs: int)

  function Min(a: int, b: int): int { if a < b then a else b }

  /** The level at a time; a tenant without a row has a full bucket, and a clock that went
      back refills nothing. */
  function Level(buckets: map<Tenant, Bucket>, tenant: Tenant, now: int): int {
    if tenant !in buckets then CAPACITY
    else
      var b := buckets[tenant];
      Min(CAPACITY, b.tokens + REFILL_PER_MS * (if now > b.lastRefillAt then now - b.lastRefillAt else 0))
  }

  function Decide(level: int): Decision {
    if level >= COST then Accepted else RateLimited((COST - level + 1) / 2)
  }

  function Charged(buckets: map<Tenant, Bucket>, tenant: Tenant, now: int): map<Tenant, Bucket> {
    if Level(buckets, tenant, now) >= COST then buckets[tenant := Bucket(Level(buckets, tenant, now) - COST, now)] else buckets
  }

  class RateLimiter {
    var buckets: map<Tenant, Bucket>

    constructor ()
      ensures buckets == map[]
    {
      buckets := map[];
    }

    /** One call: an accepted one takes a token, a rejected one changes nothing. */
    method CheckAndConsume(tenant: Tenant, now: int) returns (d: Decision)
      modifies this
      ensures d == Decide(Level(old(buckets), tenant, now)) && buckets == Charged(old(buckets), tenant, now)
      ensures d.RateLimited? ==> buckets == old(buckets) && d.retryAfterMs >= 1
    {
      var tokens := CAPACITY;
      if tenant in buckets {
        var row := buckets[tenant];
        var elapsed := if now - row.lastRefillAt > 0 then now - row.lastRefillAt else 0;
        tokens := row.tokens + elapsed * REFILL_PER_MS;
        if tokens > CAPACITY { tokens := CAPACITY; }
      }
      if tokens < COST {
        return RateLimited((COST - tokens + 1) / 2);
      }
      buckets := buckets[tenant := Bucket(tokens - COST, now)];
      return Accepted;
    }
  }

  // ---- runs of calls ----

  datatype Call = Call(tenant: Tenant, at: int)

  function After(start: map<Tenant, Bucket>, calls: seq<Call>): map<Tenant, Bucket> {
    if calls == [] then start else Charged(After(start, calls[..|calls| - 1]), calls[|calls| - 1].tenant, calls[|calls| - 1].at)
  }

  /** How many of the tenant's calls are accepted. */
  function AcceptedCalls(start: map<Tenant, Bucket>, calls: seq<Call>, tenant: Tenant): nat {
    if calls == [] then 0
    else
      var before, last := calls[..|calls| - 1], calls[|calls| - 1];
      AcceptedCalls(start, before, tenant) + (if last.tenant == tenant && Level(After(start, before), tenant, last.at) >= COST then 1 else 0)
  }

  predicate Monotone(calls: seq<Call>) { forall i, j | 0 <= i <= j < |calls| :: calls[i].at <= calls[j].at }

  /** No row is from the future of the run. */
  predicate Settled(buckets: map<Tenant, Bucket>, limit: int) { forall t | t in buckets :: 0 <= buckets[t].tokens <= CAPACITY && buckets[t].lastRefillAt <= limit }

  lemma LevelGrows(buckets: map<Tenant, Bucket>, tenant: Tenant, from: int, to: int)
    requires from <= to
    ensures Level(buckets, tenant, from) <= Level(buckets, tenant, to) <= Level(buckets, tenant, from) + REFILL_PER_MS * (to - from)
  {
  }

  /** What has been accepted plus what is left never exceeds what there was plus what came
      in: over any window that starts at `from` and ends at `to`. */
  lemma {:induction false} Conservation(start: map<Tenant, Bucket>, calls: seq<Call>, tenant: Tenant, from: int, to: int)
    requires Monotone(calls) && Settled(start, from) && (forall i | 0 <= i < |calls| :: from <= calls[i].at <= to) && from <= to
    ensures Settled(After(start, calls), to)
    ensures COST * AcceptedCalls(start, calls, tenant) + Level(After(start, calls), tenant, to) <= Level(start, tenant, from) + REFILL_PER_MS * (to - from)
    decreases |calls|
  {
    if calls == [] {
      LevelGrows(start, tenant, from, to);
    } else {
      var before, last := calls[..|calls| - 1], calls[|calls| - 1];
      Conservation(start, before, tenant, from, last.at);
      LevelGrows(After(start, calls), tenant, last.at, to);
    }
  }

  /** In every window of every run, a tenant's accepted calls number at most 20 plus two per
      elapsed second. */
  lemma AcceptedCallsAreBounded(earlier: seq<Call>, window: seq<Call>, tenant: Tenant, from: int, to: int)
    requires Monotone(earlier + window) && from <= to
    requires (forall i | 0 <= i < |earlier| :: earlier[i].at <= from) && (forall i | 0 <= i < |window| :: from <= window[i].at <= to)
    ensures 1000 * AcceptedCalls(After(map[], earlier), window, tenant) <= 20 * 1000 + 2 * (to - from)
  {
    SettledAfter(earlier, from);
    WindowIsMonotone(earlier, window);
    Conservation(After(map[], earlier), window, tenant, from, to);
    LevelIsNotNegative(After(After(map[], earlier), window), tenant, to);
  }

  lemma LevelIsNotNegative(buckets: map<Tenant, Bucket>, tenant: Tenant, now: int)
    requires Settled(buckets, now)
    ensures 0 <= Level(buckets, tenant, now) <= CAPACITY
  {
  }

  lemma {:induction false} SettledAfter(calls: seq<Call>, limit: int)
    requires forall i | 0 <= i < |calls| :: calls[i].at <= limit
    ensures Settled(After(map[], calls), limit)
  {
    if calls != [] { SettledAfter(calls[..|calls| - 1], limit); ChargeSettles(After(map[], calls[..|calls| - 1]), calls[|calls| - 1], limit); }
  }

  lemma ChargeSettles(buckets: map<Tenant, Bucket>, call: Call, limit: int)
    requires Settled(buckets, limit) && call.at <= limit
    ensures Settled(Charged(buckets, call.tenant, call.at), limit)
  {
  }

  lemma WindowIsMonotone(earlier: seq<Call>, window: seq<Call>)
    requires Monotone(earlier + window)
    ensures Monotone(window)
  {
    forall i, j | 0 <= i <= j < |window| ensures window[i].at <= window[j].at {
      assert (earlier + window)[|earlier| + i] == window[i] && (earlier + window)[|earlier| + j] == window[j];
    }
  }

  /** Other tenants' calls, and the tenant's own rejected ones, do not move its bucket. */
  lemma {:induction false} OthersDoNotMatter(start: map<Tenant, Bucket>, calls: seq<Call>, tenant: Tenant, now: int)
    requires AcceptedCalls(start, calls, tenant) == 0
    ensures Level(After(start, calls), tenant, now) == Level(start, tenant, now)
  {
    if calls != [] { OthersDoNotMatter(start, calls[..|calls| - 1], tenant, now); OthersDoNotMatter(start, calls[..|calls| - 1], tenant, calls[|calls| - 1].at); }
  }

  /** The retry hint is exact: with no accepted call in between, a rejected tenant is
      accepted from `retryAfterMs` later on, and not a millisecond sooner. */
  lemma RetryAfterIsExact(start: map<Tenant, Bucket>, tenant: Tenant, now: int, between: seq<Call>, later: int)
    requires Settled(start, now) && Decide(Level(start, tenant, now)).RateLimited? && now <= later
    requires AcceptedCalls(start, between, tenant) == 0
    ensures Decide(Level(After(start, between), tenant, later)) == Accepted <==> later >= now + Decide(Level(start, tenant, now)).retryAfterMs
  {
    OthersDoNotMatter(start, between, tenant, later);
  }

  // ---- what is accepted ----

  /** The level in full: a fresh tenant has twenty calls, and two thousandths of a call come
      in each millisecond up to that. */
  lemma LevelIs(buckets: map<Tenant, Bucket>, tenant: Tenant, now: int)
    ensures tenant !in buckets ==> Level(buckets, tenant, now) == 20 * 1000
    ensures tenant in buckets && buckets[tenant].lastRefillAt <= now ==>
      var filled := buckets[tenant].tokens + 2 * (now - buckets[tenant].lastRefillAt);
      Level(buckets, tenant, now) == if filled <= 20 * 1000 then filled else 20 * 1000
    ensures Decide(Level(buckets, tenant, now)) == Accepted <==> Level(buckets, tenant, now) >= 1000
  {
  }

  predicate Burst(calls: seq<Call>, tenant: Tenant, at: int) { forall i | 0 <= i < |calls| :: calls[i] == Call(tenant, at) }

  /** Of a burst on a full bucket exactly the first twenty calls are accepted. */
  lemma {:induction false} FirstTwentyAreAccepted(start: map<Tenant, Bucket>, calls: seq<Call>, tenant: Tenant, at: int)
    requires Level(start, tenant, at) == 20 * 1000 && Burst(calls, tenant, at)
    ensures AcceptedCalls(start, calls, tenant) == if |calls| <= 20 then |calls| else 20
    ensures Level(After(start, calls), tenant, at) == 20 * 1000 - 1000 * AcceptedCalls(start, calls, tenant)
  {
    if calls != [] { FirstTwentyAreAccepted(start, calls[..|calls| - 1], tenant, at); }
  }

  /** And a tenant that waits half a second after an accepted call is accepted again. */
  lemma EveryHalfSecond(buckets: map<Tenant, Bucket>, tenant: Tenant, at: int)
    requires Decide(Level(buckets, tenant, at)) == Accepted
    ensures Decide(Level(Charged(buckets, tenant, at), tenant, at + 500)) == Accepted
  {
  }
}
