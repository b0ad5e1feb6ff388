/** A token bucket whose clock ticks once per token, so that time passed is tokens earned. The limiter
    in seconds (module RateLimit) is this one at `rps` ticks a second. Requests may reach a bucket out
    of the order of their times; nothing below assumes otherwise. */
module TokenClock {

  /** `updated` is the time of the last request that reached the bucket. */
  datatype Bucket = Bucket(tokens: real, updated: real)

  datatype Request = Request(key: string, exempt: bool, time: real)

  type Buckets = map<string, Bucket>

  function Min(a: real, b: real): real {
    if a <= b then a else b
  }

  function Level(burst: real, buckets: Buckets, key: string, now: real): real {
    if key in buckets then Min(burst, buckets[key].tokens + (now - buckets[key].updated)) else burst
  }

  predicate Granted(burst: real, buckets: Buckets, q: Request) {
    q.exempt || Level(burst, buckets, q.key, q.time) >= 1.0
  }

  function Put(burst: real, buckets: Buckets, q: Request): Buckets {
    if q.exempt then buckets
    else
      var tokens := Level(burst, buckets, q.key, q.time);
      buckets[q.key := Bucket(if tokens >= 1.0 then tokens - 1.0 else tokens, q.time)]
  }

  /** The buckets after a list of requests. */
  function After(burst: real, buckets: Buckets, qs: seq<Request>): Buckets {
    if qs == [] then buckets
    else Put(burst, After(burst, buckets, qs[..|qs| - 1]), qs[|qs| - 1])
  }

  predicate GrantedAt(burst: real, buckets: Buckets, qs: seq<Request>, i: nat)
    requires i < |qs|
  {
    Granted(burst, After(burst, buckets, qs[..i]), qs[i])
  }

  predicate Counted(q: Request, key: string, s: real, t: real) {
    !q.exempt && q.key == key && s <= q.time <= t
  }

  /** How many requests of one bucket with times in [s, t] were allowed. */
  function AllowedIn(burst: real, buckets: Buckets, qs: seq<Request>, key: string, s: real, t: real): nat {
    if qs == [] then 0
    else
      var last := |qs| - 1;
      AllowedIn(burst, buckets, qs[..last], key, s, t)
      + (if Counted(qs[last], key, s, t) && GrantedAt(burst, buckets, qs, last) then 1 else 0)
  }

  // ---------------------------------------------------------------- the window bound

  /** The bucket's level, run back to time 0. */
  function Line(b: Bucket): real {
    b.tokens - b.updated
  }

  /** A request can only lower the line of its bucket, and an allowed one lowers it by a token. */
  lemma LineFalls(burst: real, buckets: Buckets, q: Request)
    requires !q.exempt && q.key in buckets
    ensures Line(Put(burst, buckets, q)[q.key])
            <= Line(buckets[q.key]) - (if Granted(burst, buckets, q) then 1.0 else 0.0)
    ensures Granted(burst, buckets, q) ==> Line(buckets[q.key]) + q.time >= 1.0
    ensures !Granted(burst, buckets, q) && burst >= 1.0 ==> Line(Put(burst, buckets, q)[q.key]) == Line(buckets[q.key])
  {
  }

  lemma {:induction false} LineAfterWindow(burst: real, buckets: Buckets, qs: seq<Request>, key: string, s: real,
                                           t: real)
    requires AllowedIn(burst, buckets, qs, key, s, t) > 0
    ensures key in After(burst, buckets, qs)
    ensures Line(After(burst, buckets, qs)[key]) <= burst - s - AllowedIn(burst, buckets, qs, key, s, t) as real
  {
    var q, before := qs[|qs| - 1], After(burst, buckets, qs[..|qs| - 1]);
    if AllowedIn(burst, buckets, qs[..|qs| - 1], key, s, t) > 0 {
      LineAfterWindow(burst, buckets, qs[..|qs| - 1], key, s, t);
      if !q.exempt && q.key == key {
        LineFalls(burst, before, q);
      }
    }
  }

  lemma {:induction false} WindowBound(burst: real, buckets: Buckets, qs: seq<Request>, key: string, s: real, t: real)
    requires burst >= 0.0 && s <= t
    ensures AllowedIn(burst, buckets, qs, key, s, t) as real <= burst + (t - s)
  {
    if qs != [] {
      var last := |qs| - 1;
      WindowBound(burst, buckets, qs[..last], key, s, t);
      if Counted(qs[last], key, s, t) && GrantedAt(burst, buckets, qs, last) {
        if AllowedIn(burst, buckets, qs[..last], key, s, t) > 0 {
          LineAfterWindow(burst, buckets, qs[..last], key, s, t);
          LineFalls(burst, After(burst, buckets, qs[..last]), qs[last]);
        }
      }
    }
  }

  // ---------------------------------------------------------------- the bound is attained

  function SameRequest(q: Request, n: nat): seq<Request> {
    seq(n, i => q)
  }

  lemma {:induction false} BurstAtOnce(burst: real, buckets: Buckets, q: Request, n: nat)
    requires burst >= 0.0 && !q.exempt && q.key !in buckets
    ensures var whole := if n <= burst.Floor then n else burst.Floor;
            var b := After(burst, buckets, SameRequest(q, n));
            && AllowedIn(burst, buckets, SameRequest(q, n), q.key, q.time, q.time) == whole
            && if n == 0 then b == buckets else q.key in b && b[q.key] == Bucket(burst - whole as real, q.time)
  {
    if n > 0 {
      assert SameRequest(q, n)[..n - 1] == SameRequest(q, n - 1);
      BurstAtOnce(burst, buckets, q, n - 1);
    }
  }

  // ---------------------------------------------------------------- waiting

  /** No request of the list is granted a token of this bucket. */
  ghost predicate NoneGranted(burst: real, buckets: Buckets, qs: seq<Request>, key: string) {
    forall i | 0 <= i < |qs| && !qs[i].exempt && qs[i].key == key :: !GrantedAt(burst, buckets, qs, i)
  }

  lemma {:induction false} LineStays(burst: real, buckets: Buckets, qs: seq<Request>, key: string)
    requires burst >= 1.0 && key in buckets && NoneGranted(burst, buckets, qs, key)
    ensures key in After(burst, buckets, qs) && Line(After(burst, buckets, qs)[key]) == Line(buckets[key])
  {
    if qs != [] {
      var last := |qs| - 1;
      assert NoneGranted(burst, buckets, qs[..last], key) by {
        forall i | 0 <= i < last && !qs[i].exempt && qs[i].key == key
          ensures !GrantedAt(burst, buckets, qs[..last], i)
        {
          assert qs[..last][..i] == qs[..i];
          assert !GrantedAt(burst, buckets, qs, i);
        }
      }
      LineStays(burst, buckets, qs[..last], key);
      if !qs[last].exempt && qs[last].key == key {
        assert !GrantedAt(burst, buckets, qs, last);
        LineFalls(burst, After(burst, buckets, qs[..last]), qs[last]);
      }
    }
  }

  /** After a refusal, and as long as nothing else is granted from the bucket, a later request is
      allowed exactly if the wait covers the deficit. */
  lemma AllowedOnceRefilled(burst: real, buckets: Buckets, q: Request, between: seq<Request>, next: Request)
    requires burst >= 1.0 && !Granted(burst, buckets, q)
    requires NoneGranted(burst, Put(burst, buckets, q), between, q.key)
    requires !next.exempt && next.key == q.key
    ensures Granted(burst, After(burst, Put(burst, buckets, q), between), next)
            <==> next.time - q.time >= 1.0 - Level(burst, buckets, q.key, q.time)
  {
    LineStays(burst, Put(burst, buckets, q), between, q.key);
  }

  // ---------------------------------------------------------------- buckets are independent

  /** The requests that reach one bucket. */
  function Reaching(qs: seq<Request>, key: string): seq<Request> {
    if qs == [] then []
    else
      var q := qs[|qs| - 1];
      Reaching(qs[..|qs| - 1], key) + (if !q.exempt && q.key == key then [q] else [])
  }

  ghost predicate SameBucket(a: Buckets, b: Buckets, key: string) {
    (key in a <==> key in b) && (key in a ==> a[key] == b[key])
  }

  lemma {:induction false} BucketsAreIndependent(burst: real, buckets: Buckets, qs: seq<Request>, key: string)
    ensures SameBucket(After(burst, buckets, qs), After(burst, buckets, Reaching(qs, key)), key)
  {
    if qs != [] {
      var q := qs[|qs| - 1];
      BucketsAreIndependent(burst, buckets, qs[..|qs| - 1], key);
      var before := Reaching(qs[..|qs| - 1], key);
      if !q.exempt && q.key == key {
        assert (before + [q])[..|before|] == before;
      } else {
        assert Reaching(qs, key) == before;
      }
    }
  }
}
