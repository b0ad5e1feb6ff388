/** lead_engine/ratelimit.py: the limiter in seconds, over exact reals, and its bounds. The clock is
    read before the lock is taken, so times may reach a bucket out of order. */
module RateLimit {
  import opened TokenClock

  datatype Limits = Limits(rps: real, burst: real)

  datatype Answer = Answer(allowed: bool, retryAfter: int)

  ghost predicate Sensible(l: Limits) {
    l.rps > 0.0 && l.burst > 0.0
  }

  function LevelNow(l: Limits, buckets: Buckets, key: string, now: real): real {
    if key in buckets then Min(l.burst, buckets[key].tokens + (now - buckets[key].updated) * l.rps) else l.burst
  }

  function RetryAfter(l: Limits, tokens: real): int
    requires l.rps > 0.0
  {
    var retry := ((1.0 - tokens) / l.rps).Floor + 1;
    if retry < 1 then 1 else retry
  }

  /** `allow`. */
  function Allow(l: Limits, buckets: Buckets, q: Request): (Buckets, Answer)
    requires l.rps > 0.0
  {
    if q.exempt then (buckets, Answer(true, 0))
    else
      var tokens := LevelNow(l, buckets, q.key, q.time);
      if tokens >= 1.0 then (buckets[q.key := Bucket(tokens - 1.0, q.time)], Answer(true, 0))
      else (buckets[q.key := Bucket(tokens, q.time)], Answer(false, RetryAfter(l, tokens)))
  }

  /** The buckets after a list of requests. */
  function AfterAll(l: Limits, buckets: Buckets, qs: seq<Request>): Buckets
    requires l.rps > 0.0
  {
    if qs == [] then buckets
    else Allow(l, AfterAll(l, buckets, qs[..|qs| - 1]), qs[|qs| - 1]).0
  }

  /** What request `i` of the list is told. */
  function Told(l: Limits, buckets: Buckets, qs: seq<Request>, i: nat): Answer
    requires l.rps > 0.0 && i < |qs|
  {
    Allow(l, AfterAll(l, buckets, qs[..i]), qs[i]).1
  }

  /** How many requests of one bucket with times in [s, t] were allowed. */
  function AllowedBetween(l: Limits, buckets: Buckets, qs: seq<Request>, key: string, s: real, t: real): nat
    requires l.rps > 0.0
  {
    if qs == [] then 0
    else
      var last := |qs| - 1;
      AllowedBetween(l, buckets, qs[..last], key, s, t)
      + (if Counted(qs[last], key, s, t) && Told(l, buckets, qs, last).allowed then 1 else 0)
  }

  // ---------------------------------------------------------------- seconds and ticks

  function TicksOf(l: Limits, time: real): real {
    time * l.rps
  }

  function InTicks(l: Limits, buckets: Buckets): Buckets {
    map k | k in buckets :: Bucket(buckets[k].tokens, TicksOf(l, buckets[k].updated))
  }

  function Ticked(l: Limits, q: Request): Request {
    q.(time := TicksOf(l, q.time))
  }

  function AllTicked(l: Limits, qs: seq<Request>): seq<Request> {
    seq(|qs|, i requires 0 <= i < |qs| => Ticked(l, qs[i]))
  }

  lemma TicksAdd(l: Limits, s: real, t: real)
    ensures (t - s) * l.rps == TicksOf(l, t) - TicksOf(l, s) == TicksOf(l, t - s) == l.rps * (t - s)
  {
  }

  lemma TicksGrow(l: Limits, s: real, t: real)
    requires l.rps > 0.0
    ensures s <= t <==> TicksOf(l, s) <= TicksOf(l, t)
  {
    if s < t {
      assert (t - s) * l.rps > 0.0;
    } else {
      assert (s - t) * l.rps >= 0.0;
    }
  }

  lemma LevelInTicks(l: Limits, buckets: Buckets, key: string, now: real)
    ensures LevelNow(l, buckets, key, now) == Level(l.burst, InTicks(l, buckets), key, TicksOf(l, now))
  {
    if key in buckets {
      TicksAdd(l, buckets[key].updated, now);
    }
  }

  /** The limiter in seconds does what the limiter in ticks does. */
  lemma AllowInTicks(l: Limits, buckets: Buckets, q: Request)
    requires l.rps > 0.0
    ensures InTicks(l, Allow(l, buckets, q).0) == Put(l.burst, InTicks(l, buckets), Ticked(l, q))
    ensures Allow(l, buckets, q).1.allowed <==> Granted(l.burst, InTicks(l, buckets), Ticked(l, q))
  {
    LevelInTicks(l, buckets, q.key, q.time);
  }

  lemma {:induction false} AfterInTicks(l: Limits, buckets: Buckets, qs: seq<Request>)
    requires l.rps > 0.0
    ensures InTicks(l, AfterAll(l, buckets, qs)) == After(l.burst, InTicks(l, buckets), AllTicked(l, qs))
  {
    if qs != [] {
      var last := |qs| - 1;
      AfterInTicks(l, buckets, qs[..last]);
      AllowInTicks(l, AfterAll(l, buckets, qs[..last]), qs[last]);
      assert AllTicked(l, qs)[..last] == AllTicked(l, qs[..last]);
    }
  }

  lemma ToldInTicks(l: Limits, buckets: Buckets, qs: seq<Request>, i: nat)
    requires l.rps > 0.0 && i < |qs|
    ensures Told(l, buckets, qs, i).allowed <==> GrantedAt(l.burst, InTicks(l, buckets), AllTicked(l, qs), i)
  {
    AfterInTicks(l, buckets, qs[..i]);
    AllowInTicks(l, AfterAll(l, buckets, qs[..i]), qs[i]);
    assert AllTicked(l, qs)[..i] == AllTicked(l, qs[..i]);
  }

  lemma {:induction false} AllowedInTicks(l: Limits, buckets: Buckets, qs: seq<Request>, key: string, s: real, t: real)
    requires l.rps > 0.0
    ensures AllowedBetween(l, buckets, qs, key, s, t)
            == AllowedIn(l.burst, InTicks(l, buckets), AllTicked(l, qs), key, TicksOf(l, s), TicksOf(l, t))
  {
    if qs != [] {
      var last := |qs| - 1;
      AllowedInTicks(l, buckets, qs[..last], key, s, t);
      ToldInTicks(l, buckets, qs, last);
      TicksGrow(l, s, qs[last].time);
      TicksGrow(l, qs[last].time, t);
      assert AllTicked(l, qs)[..last] == AllTicked(l, qs[..last]);
    }
  }

  // ---------------------------------------------------------------- the window bound

  /** For every list of requests, to any buckets, with times in any order, starting from any buckets:
      one bucket allows at most burst + rps * (t - s) requests with times in [s, t]. */
  lemma WindowIsBounded(l: Limits, buckets: Buckets, qs: seq<Request>, key: string, s: real, t: real)
    requires Sensible(l) && s <= t
    ensures AllowedBetween(l, buckets, qs, key, s, t) as real <= l.burst + l.rps * (t - s)
  {
    AllowedInTicks(l, buckets, qs, key, s, t);
    TicksGrow(l, s, t);
    TicksAdd(l, s, t);
    WindowBound(l.burst, InTicks(l, buckets), AllTicked(l, qs), key, TicksOf(l, s), TicksOf(l, t));
  }

  /** The whole burst is granted at once on a fresh bucket: of n simultaneous requests exactly
      floor(burst) are allowed, or all n if there are fewer. */
  lemma BurstIsGranted(l: Limits, buckets: Buckets, q: Request, n: nat)
    requires Sensible(l) && !q.exempt && q.key !in buckets
    ensures AllowedBetween(l, buckets, SameRequest(q, n), q.key, q.time, q.time)
            == if n <= l.burst.Floor then n else l.burst.Floor
  {
    AllowedInTicks(l, buckets, SameRequest(q, n), q.key, q.time, q.time);
    assert AllTicked(l, SameRequest(q, n)) == SameRequest(Ticked(l, q), n);
    BurstAtOnce(l.burst, InTicks(l, buckets), Ticked(l, q), n);
  }

  // ---------------------------------------------------------------- Retry-After

  ghost predicate NobodyServed(l: Limits, buckets: Buckets, qs: seq<Request>, key: string)
    requires l.rps > 0.0
  {
    forall i | 0 <= i < |qs| && !qs[i].exempt && qs[i].key == key :: !Told(l, buckets, qs, i).allowed
  }

  lemma NobodyInTicks(l: Limits, buckets: Buckets, qs: seq<Request>, key: string)
    requires l.rps > 0.0 && NobodyServed(l, buckets, qs, key)
    ensures NoneGranted(l.burst, InTicks(l, buckets), AllTicked(l, qs), key)
  {
    var ts := AllTicked(l, qs);
    forall i | 0 <= i < |ts| && !ts[i].exempt && ts[i].key == key
      ensures !GrantedAt(l.burst, InTicks(l, buckets), ts, i)
    {
      ToldInTicks(l, buckets, qs, i);
      assert !Told(l, buckets, qs, i).allowed;
    }
  }

  /** After a refusal, and as long as nobody else is served from the bucket, a later request is allowed
      exactly if the wait earns the deficit. */
  lemma ServedOnceRefilled(l: Limits, buckets: Buckets, q: Request, between: seq<Request>, next: Request)
    requires Sensible(l) && l.burst >= 1.0 && !Allow(l, buckets, q).1.allowed
    requires NobodyServed(l, Allow(l, buckets, q).0, between, q.key)
    requires !next.exempt && next.key == q.key
    ensures Allow(l, AfterAll(l, Allow(l, buckets, q).0, between), next).1.allowed
            <==> TicksOf(l, next.time - q.time) >= 1.0 - LevelNow(l, buckets, q.key, q.time)
  {
    var refused := Allow(l, buckets, q).0;
    AllowInTicks(l, buckets, q);
    NobodyInTicks(l, refused, between, q.key);
    AfterInTicks(l, refused, between);
    AllowInTicks(l, AfterAll(l, refused, between), next);
    AllowedOnceRefilled(l.burst, InTicks(l, buckets), Ticked(l, q), AllTicked(l, between), Ticked(l, next));
    LevelInTicks(l, buckets, q.key, q.time);
    TicksAdd(l, q.time, next.time);
  }

  lemma Between(l: Limits, z: real, r: real)
    requires l.rps > 0.0 && r - 1.0 <= z < r
    ensures TicksOf(l, r - 1.0) <= TicksOf(l, z) < TicksOf(l, r)
  {
    TicksGrow(l, r - 1.0, z);
    TicksGrow(l, r, z);
  }

  lemma Undone(l: Limits, x: real)
    requires l.rps > 0.0 && x >= 0.0
    ensures TicksOf(l, x / l.rps) == x && x / l.rps >= 0.0
  {
  }

  /** The wait reported earns the deficit, and a second less than it does not earn more. */
  lemma RetryAfterRounds(l: Limits, tokens: real)
    requires Sensible(l) && tokens < 1.0
    ensures var retry := RetryAfter(l, tokens) as real;
            TicksOf(l, retry - 1.0) <= 1.0 - tokens < TicksOf(l, retry)
  {
    Undone(l, 1.0 - tokens);
    Between(l, (1.0 - tokens) / l.rps, RetryAfter(l, tokens) as real);
  }

  /** A refused client that waits as told is served next time, provided nobody was served from its
      bucket meanwhile and the bucket can hold a token at all; one that comes back more than a second
      sooner than told is refused again. */
  lemma RetryAfterSuffices(l: Limits, buckets: Buckets, q: Request, between: seq<Request>, next: Request)
    requires Sensible(l) && l.burst >= 1.0 && !Allow(l, buckets, q).1.allowed
    requires NobodyServed(l, Allow(l, buckets, q).0, between, q.key)
    requires !next.exempt && next.key == q.key
    ensures var retry := Allow(l, buckets, q).1.retryAfter as real;
            var allowed := Allow(l, AfterAll(l, Allow(l, buckets, q).0, between), next).1.allowed;
            && (next.time - q.time >= retry ==> allowed)
            && (next.time - q.time < retry - 1.0 ==> !allowed)
  {
    var tokens := LevelNow(l, buckets, q.key, q.time);
    var retry := RetryAfter(l, tokens) as real;
    ServedOnceRefilled(l, buckets, q, between, next);
    RetryAfterRounds(l, tokens);
    TicksGrow(l, retry, next.time - q.time);
    TicksGrow(l, retry - 1.0, next.time - q.time);
  }

  /** A bucket smaller than one token refuses every request, however long the client waits: the
      promise of Retry-After needs burst >= 1. */
  lemma SmallBucketRefusesAll(l: Limits, buckets: Buckets, q: Request)
    requires Sensible(l) && l.burst < 1.0 && !q.exempt
    ensures !Allow(l, buckets, q).1.allowed
  {
    LevelInTicks(l, buckets, q.key, q.time);
  }

  /** What others ask for never changes what a bucket grants: one hot endpoint cannot use up another's
      budget. */
  lemma OthersDoNotMatter(l: Limits, buckets: Buckets, qs: seq<Request>, q: Request)
    requires l.rps > 0.0
    ensures Allow(l, AfterAll(l, buckets, qs), q).1.allowed
            <==> Allow(l, AfterAll(l, buckets, Reaching(qs, q.key)), q).1.allowed
  {
    AllowInTicks(l, AfterAll(l, buckets, qs), q);
    AllowInTicks(l, AfterAll(l, buckets, Reaching(qs, q.key)), q);
    AfterInTicks(l, buckets, qs);
    AfterInTicks(l, buckets, Reaching(qs, q.key));
    ReachingTicked(l, qs, q.key);
    BucketsAreIndependent(l.burst, InTicks(l, buckets), AllTicked(l, qs), q.key);
  }

  lemma {:induction false} ReachingTicked(l: Limits, qs: seq<Request>, key: string)
    ensures AllTicked(l, Reaching(qs, key)) == Reaching(AllTicked(l, qs), key)
  {
    if qs != [] {
      var last := |qs| - 1;
      ReachingTicked(l, qs[..last], key);
      assert AllTicked(l, qs)[..last] == AllTicked(l, qs[..last]);
    }
  }
}

/** The limiter object. */
module RateLimiterModule {
  import opened TokenClock
  import opened RateLimit

  class RateLimiter {
    const limits: Limits
    var buckets: Buckets

    constructor (rps: real, burst: real)
      ensures limits == Limits(rps, burst) && buckets == map[]
    {
      limits := Limits(rps, burst);
      buckets := map[];
    }

    method Allow(key: string, exempt: bool, now: real) returns (allowed: bool, retryAfter: int)
      requires limits.rps > 0.0
      modifies this
      ensures (buckets, Answer(allowed, retryAfter)) == RateLimit.Allow(limits, old(buckets), Request(key, exempt, now))
      ensures exempt ==> allowed && buckets == old(buckets)
      ensures if allowed then retryAfter == 0 else retryAfter >= 1
    {
      if exempt {
        return true, 0;
      }
      var tokens, updated := limits.burst, now;
      if key in buckets {
        tokens, updated := buckets[key].tokens, buckets[key].updated;
      }
      tokens := Min(limits.burst, tokens + (now - updated) * limits.rps);
      assert tokens == LevelNow(limits, buckets, key, now) by {
        assert now == updated ==> (now - updated) * limits.rps == 0.0;
      }
      if tokens >= 1.0 {
        buckets := buckets[key := Bucket(tokens - 1.0, now)];
        return true, 0;
      }
      buckets := buckets[key := Bucket(tokens, now)];
      var deficit := 1.0 - tokens;
      retryAfter := (deficit / limits.rps).Floor + 1;
      if retryAfter < 1 {
        retryAfter := 1;
      }
      allowed := false;
    }

    method Reset()
      modifies this
      ensures buckets == map[]
    {
      buckets := map[];
    }
  }
}
