/** The token-bucket limiter of the authentication endpoints and the TTL cache that holds its buckets.

    Time and tokens are reals. A call reads its clock once.
 */
module RateLimit {

  datatype Params = Params(capacity: real, refill: real, idleTtl: real)

  // What the cache keeps for a key: the bucket and the moment the entry expires.
  datatype Stored = Stored(tokens: real, updated: real, expires: real)

  type Cache = map<string, Stored>

  datatype Call = Call(key: string, cost: real, now: real)

  function Min(a: real, b: real): real {
    if a <= b then a else b
  }

  // Tokens that flow in during `elapsed`.
  function Refill(p: Params, elapsed: real): real {
    elapsed * p.refill
  }

  // Tokens a call on `key` finds. A cache that keeps buckets forever ignores expiry.
  function Available(p: Params, forever: bool, cache: Cache, key: string, now: real): real {
    if key in cache && (forever || now < cache[key].expires)
    then Min(p.capacity, cache[key].tokens + Refill(p, now - cache[key].updated))
    else p.capacity
  }

  function Answer(p: Params, forever: bool, cache: Cache, c: Call): bool {
    Available(p, forever, cache, c.key, c.now) >= c.cost
  }

  // Storing an entry first drops the expired ones, then renews the key's own.
  function Store(p: Params, forever: bool, cache: Cache, key: string, tokens: real, now: real): Cache {
    Unexpired(forever, cache, now)[key := Stored(tokens, now, now + p.idleTtl)]
  }

  function Unexpired(forever: bool, cache: Cache, now: real): Cache {
    map k | k in cache && (forever || now < cache[k].expires) :: cache[k]
  }

  function Step(p: Params, forever: bool, cache: Cache, c: Call): Cache {
    var found := Available(p, forever, cache, c.key, c.now);
    Store(p, forever, cache, c.key, if found >= c.cost then found - c.cost else found, c.now)
  }

  // ---- the limiter as an object --------------------------------------------

  class Bucket {
    var tokens: real
    var updated: real

    constructor (tokens: real, updated: real)
      ensures this.tokens == tokens && this.updated == updated
    {
      this.tokens, this.updated := tokens, updated;
    }
  }

  datatype Entry = Entry(bucket: Bucket, expires: real)

  class RateLimiter {
    const params: Params
    var buckets: map<string, Entry>
    ghost var contents: Cache

    ghost function Objects(): set<Bucket>
      reads this
    {
      set k | k in buckets :: buckets[k].bucket
    }

    // The contents are those of the bucket objects, save at `pending`, and no two keys share a bucket.
    ghost predicate Consistent(pending: set<string>)
      reads this, Objects()
    {
      && contents.Keys == buckets.Keys
      && (forall k :: k in buckets && k !in pending ==>
            contents[k] == Stored(buckets[k].bucket.tokens, buckets[k].bucket.updated, buckets[k].expires))
      && (forall k :: k in buckets ==> contents[k].expires == buckets[k].expires)
      && forall j, k :: j in buckets && k in buckets && buckets[j].bucket == buckets[k].bucket ==> j == k
    }

    ghost predicate Valid()
      reads this, Objects()
    {
      Consistent({})
    }

    constructor (params: Params)
      ensures Valid() && this.params == params && contents == map[]
    {
      this.params := params;
      buckets, contents := map[], map[];
    }

    method Allow(key: string, cost: real, now: real) returns (allowed: bool)
      requires Valid()
      modifies this, Objects()
      ensures Valid() && fresh(Objects() - old(Objects()))
      ensures allowed == Answer(params, false, old(contents), Call(key, cost, now))
      ensures contents == Step(params, false, old(contents), Call(key, cost, now))
    {
      var bucket: Bucket;
      if key in buckets && now < buckets[key].expires {
        bucket := buckets[key].bucket;
        var elapsed := now - bucket.updated;
        bucket.tokens := Min(params.capacity, bucket.tokens + Refill(params, elapsed));
        bucket.updated := now;
      } else {
        bucket := new Bucket(params.capacity, now);
      }
      assert bucket.tokens == Available(params, false, contents, key, now);
      allowed := bucket.tokens >= cost;
      if allowed {
        bucket.tokens := bucket.tokens - cost;
      }
      ghost var left := bucket.tokens;
      assert Step(params, false, contents, Call(key, cost, now)) == Store(params, false, contents, key, left, now);
      Expire(now, {key});
      Put(key, bucket, now);
    }

    // The two halves of assigning to a key of the TTL cache.
    method Expire(now: real, ghost pending: set<string>)
      requires Consistent(pending)
      modifies this
      ensures Consistent(pending) && Objects() <= old(Objects())
      ensures forall k :: k in buckets ==> k in old(buckets) && buckets[k] == old(buckets)[k]
      ensures contents == Unexpired(false, old(contents), now)
    {
      buckets := map k | k in buckets && now < buckets[k].expires :: buckets[k];
      contents := Unexpired(false, contents, now);
    }

    method Put(key: string, bucket: Bucket, now: real)
      requires Consistent({key}) && bucket.updated == now
      requires forall k :: k in buckets && buckets[k].bucket == bucket ==> k == key
      modifies this
      ensures Valid() && Objects() <= old(Objects()) + {bucket}
      ensures contents == old(contents)[key := Stored(bucket.tokens, now, now + params.idleTtl)]
    {
      buckets := buckets[key := Entry(bucket, now + params.idleTtl)];
      contents := contents[key := Stored(bucket.tokens, now, now + params.idleTtl)];
    }
  }

  // ---- runs ----------------------------------------------------------------

  // The cache before call number n.
  function CacheAt(p: Params, forever: bool, calls: seq<Call>, n: nat): Cache
    requires n <= |calls|
  {
    if n == 0 then map[] else Step(p, forever, CacheAt(p, forever, calls, n - 1), calls[n - 1])
  }

  function Allowed(p: Params, forever: bool, calls: seq<Call>, n: nat): bool
    requires n < |calls|
  {
    Answer(p, forever, CacheAt(p, forever, calls, n), calls[n])
  }

  // What the allowed calls on `key` numbered from..to-1 cost together.
  function Spent(p: Params, forever: bool, calls: seq<Call>, key: string, from: nat, until: nat): real
    requires until <= |calls|
    decreases until
  {
    if until <= from then 0.0
    else
      Spent(p, forever, calls, key, from, until - 1)
      + (if calls[until - 1].key == key && Allowed(p, forever, calls, until - 1) then calls[until - 1].cost else 0.0)
  }

  // Taking x more at time `now` stays within capacity + refill * window for the window that
  // opens at every earlier call on the key, and within capacity for the empty window.
  ghost predicate FitsEveryWindow(p: Params, forever: bool, calls: seq<Call>, key: string, n: nat, x: real, now: real)
    requires n <= |calls|
  {
    && x <= p.capacity
    && forall j: nat :: j < n && calls[j].key == key ==>
         Spent(p, forever, calls, key, j, n) + x <= p.capacity + (now - calls[j].now) * p.refill
  }

  ghost predicate ClockNeverGoesBack(calls: seq<Call>) {
    forall i, j :: 0 <= i <= j < |calls| ==> calls[i].now <= calls[j].now
  }

  // The same in terms of the refill.
  ghost predicate FitsWindows(p: Params, forever: bool, calls: seq<Call>, key: string, n: nat, x: real, now: real)
    requires n <= |calls|
  {
    && x <= p.capacity
    && forall j: nat :: j < n && calls[j].key == key ==>
         Spent(p, forever, calls, key, j, n) + x <= p.capacity + Refill(p, now - calls[j].now)
  }

  lemma FitsEither(p: Params, forever: bool, calls: seq<Call>, key: string, n: nat, x: real, now: real)
    requires n <= |calls|
    ensures FitsWindows(p, forever, calls, key, n, x, now) <==> FitsEveryWindow(p, forever, calls, key, n, x, now)
  {
    forall j: nat | j < n
      ensures Refill(p, now - calls[j].now) == (now - calls[j].now) * p.refill
    {
    }
  }

  lemma RefillAdds(p: Params, a: real, b: real)
    ensures Refill(p, a + b) == Refill(p, a) + Refill(p, b)
  {
  }

  lemma RefillGrows(p: Params, a: real, b: real)
    requires p.refill >= 0.0 && a <= b
    ensures Refill(p, a) <= Refill(p, b)
  {
    RefillAdds(p, a, b - a);
  }

  // What a call leaves behind is what the next call on the key finds, less the cost it was
  // granted and plus the refill since, capped.
  lemma AvailableAfterCall(p: Params, cache: Cache, c: Call, now: real)
    ensures var found := Available(p, true, cache, c.key, c.now);
            var granted := if found >= c.cost then c.cost else 0.0;
            Available(p, true, Step(p, true, cache, c), c.key, now)
            == Min(p.capacity, found - granted + Refill(p, now - c.now))
  {
  }

  lemma {:induction false} TokensFitWindows(
      p: Params, calls: seq<Call>, key: string, n: nat, x: real, now: real)
    requires n <= |calls|
    ensures x <= Available(p, true, CacheAt(p, true, calls, n), key, now)
            <==> FitsWindows(p, true, calls, key, n, x, now)
    decreases n
  {
    if n > 0 {
      var m := n - 1;
      var c := calls[m];
      if c.key != key {
        TokensFitWindows(p, calls, key, m, x, now);
        assert forall j: nat :: j < m && calls[j].key == key ==>
          Spent(p, true, calls, key, j, n) == Spent(p, true, calls, key, j, m);
      } else {
        var granted := if Allowed(p, true, calls, m) then c.cost else 0.0;
        var x' := x + granted - Refill(p, now - c.now);
        AvailableAfterCall(p, CacheAt(p, true, calls, m), c, now);
        TokensFitWindows(p, calls, key, m, x', c.now);
        WindowsShift(p, calls, key, m, x, x', granted, now);
      }
    }
  }

  lemma WindowsShift(p: Params, calls: seq<Call>, key: string, m: nat, x: real, x': real, granted: real, now: real)
    requires m < |calls| && calls[m].key == key
    requires granted == if Allowed(p, true, calls, m) then calls[m].cost else 0.0
    requires x' == x + granted - Refill(p, now - calls[m].now)
    ensures x <= p.capacity && FitsWindows(p, true, calls, key, m, x', calls[m].now)
            <==> FitsWindows(p, true, calls, key, m + 1, x, now)
  {
    assert Spent(p, true, calls, key, m, m + 1) == granted;
    forall j: nat | j < m && calls[j].key == key
      ensures Spent(p, true, calls, key, j, m) + x' <= p.capacity + Refill(p, calls[m].now - calls[j].now)
         <==> Spent(p, true, calls, key, j, m + 1) + x <= p.capacity + Refill(p, now - calls[j].now)
    {
      RefillAdds(p, now - calls[m].now, calls[m].now - calls[j].now);
    }
    if FitsWindows(p, true, calls, key, m + 1, x, now) {
      assert Spent(p, true, calls, key, m, m + 1) + x <= p.capacity + Refill(p, now - calls[m].now);
    }
  }

  // The bucket is the tightest of all windows, whatever the costs, the clock and the parameters.
  lemma TokensAreTheTightestWindow(p: Params, calls: seq<Call>, key: string, n: nat, x: real, now: real)
    requires n <= |calls|
    ensures x <= Available(p, true, CacheAt(p, true, calls, n), key, now)
            <==> FitsEveryWindow(p, true, calls, key, n, x, now)
  {
    TokensFitWindows(p, calls, key, n, x, now);
    FitsEither(p, true, calls, key, n, x, now);
  }

  // ---- the cache does not show ---------------------------------------------

  // The expiring cache holds the same buckets as the one that never forgets, except that it
  // may have forgotten buckets whose idle time has run out.
  ghost predicate Agree(kept: Cache, expiring: Cache, p: Params, now: real) {
    && expiring.Keys <= kept.Keys
    && (forall k :: k in expiring ==> expiring[k] == kept[k])
    && (forall k :: k in kept && k !in expiring ==> kept[k].expires <= now)
    && (forall k :: k in kept ==>
          kept[k].tokens >= 0.0 && kept[k].updated <= now && kept[k].expires == kept[k].updated + p.idleTtl)
  }

  ghost predicate RefillsWithinTtl(p: Params) {
    p.idleTtl * p.refill >= p.capacity
  }

  lemma ForgottenBucketIsFull(kept: Cache, p: Params, key: string, now: real)
    requires p.capacity >= 0.0 && p.refill >= 0.0 && RefillsWithinTtl(p)
    requires key in kept && kept[key].tokens >= 0.0 && kept[key].updated + p.idleTtl <= now
    ensures Available(p, true, kept, key, now) == p.capacity
  {
    RefillGrows(p, p.idleTtl, now - kept[key].updated);
  }

  lemma AgreeMeansSameAnswer(kept: Cache, expiring: Cache, p: Params, last: real, c: Call)
    requires p.capacity >= 0.0 && p.refill >= 0.0 && RefillsWithinTtl(p)
    requires Agree(kept, expiring, p, last) && last <= c.now
    ensures Available(p, true, kept, c.key, c.now) == Available(p, false, expiring, c.key, c.now)
    ensures Agree(Step(p, true, kept, c), Step(p, false, expiring, c), p, c.now)
  {
    if c.key in kept {
      RefillGrows(p, 0.0, c.now - kept[c.key].updated);
      if c.key !in expiring || expiring[c.key].expires <= c.now {
        ForgottenBucketIsFull(kept, p, c.key, c.now);
      }
    }
  }

  lemma {:induction false} CachesAgree(p: Params, calls: seq<Call>, n: nat)
    requires p.capacity >= 0.0 && p.refill >= 0.0 && RefillsWithinTtl(p)
    requires ClockNeverGoesBack(calls) && n <= |calls|
    ensures n > 0 ==> Agree(CacheAt(p, true, calls, n), CacheAt(p, false, calls, n), p, calls[n - 1].now)
    ensures n < |calls| ==> Allowed(p, true, calls, n) == Allowed(p, false, calls, n)
    decreases n
  {
    if n > 0 {
      CachesAgree(p, calls, n - 1);
      var kept, expiring := CacheAt(p, true, calls, n - 1), CacheAt(p, false, calls, n - 1);
      AgreeMeansSameAnswer(kept, expiring, p, if n > 1 then calls[n - 2].now else calls[n - 1].now, calls[n - 1]);
      if n < |calls| {
        AgreeMeansSameAnswer(CacheAt(p, true, calls, n), CacheAt(p, false, calls, n), p, calls[n - 1].now, calls[n]);
      }
    }
  }

  // When a bucket cannot refill within the idle TTL, draining it and waiting exactly that long
  // gets a full bucket back from the cache that forgot it.
  lemma ForgettingShows(p: Params)
    requires p.capacity >= 0.0 && p.refill >= 0.0 && p.idleTtl >= 0.0 && !RefillsWithinTtl(p)
    ensures exists calls: seq<Call>, n: nat ::
              ClockNeverGoesBack(calls) && n < |calls| && Allowed(p, true, calls, n) != Allowed(p, false, calls, n)
  {
    var calls := [Call("client", p.capacity, 0.0), Call("client", p.capacity, p.idleTtl)];
    assert CacheAt(p, true, calls, 1) == map["client" := Stored(0.0, 0.0, p.idleTtl)] by {
      assert CacheAt(p, true, calls, 0) == map[];
    }
    assert CacheAt(p, false, calls, 1) == map["client" := Stored(0.0, 0.0, p.idleTtl)] by {
      assert CacheAt(p, false, calls, 0) == map[];
    }
    assert Allowed(p, false, calls, 1) && !Allowed(p, true, calls, 1);
  }

  // The TTL cache never changes an answer, on any run over any keys, exactly when the idle TTL
  // is long enough to refill a bucket from empty.
  lemma TtlCacheIsInvisibleIff(p: Params)
    requires p.capacity >= 0.0 && p.refill >= 0.0 && p.idleTtl >= 0.0
    ensures RefillsWithinTtl(p) <==>
            forall calls: seq<Call>, n: nat :: ClockNeverGoesBack(calls) && n < |calls| ==>
              Allowed(p, true, calls, n) == Allowed(p, false, calls, n)
  {
    if RefillsWithinTtl(p) {
      forall calls: seq<Call>, n: nat | ClockNeverGoesBack(calls) && n < |calls|
        ensures Allowed(p, true, calls, n) == Allowed(p, false, calls, n)
      {
        CachesAgree(p, calls, n);
      }
    } else {
      ForgettingShows(p);
    }
  }

  // ---- exactness of the limiter itself -------------------------------------

  lemma {:induction false} SameSpending(p: Params, calls: seq<Call>, key: string, from: nat, until: nat)
    requires p.capacity >= 0.0 && p.refill >= 0.0 && RefillsWithinTtl(p)
    requires ClockNeverGoesBack(calls) && until <= |calls|
    ensures Spent(p, true, calls, key, from, until) == Spent(p, false, calls, key, from, until)
    decreases until
  {
    if until > from {
      SameSpending(p, calls, key, from, until - 1);
      CachesAgree(p, calls, until - 1);
    }
  }

  // A call is allowed exactly when granting it keeps every window within the bound. Only calls
  // on the same key occur in the bound, so keys never affect each other.
  lemma AllowedIffEveryWindowFits(p: Params, calls: seq<Call>, n: nat)
    requires p.capacity >= 0.0 && p.refill >= 0.0 && RefillsWithinTtl(p)
    requires ClockNeverGoesBack(calls) && n < |calls|
    ensures Allowed(p, false, calls, n)
            <==> FitsEveryWindow(p, false, calls, calls[n].key, n, calls[n].cost, calls[n].now)
  {
    CachesAgree(p, calls, n);
    TokensAreTheTightestWindow(p, calls, calls[n].key, n, calls[n].cost, calls[n].now);
    forall j: nat | j < n
      ensures Spent(p, true, calls, calls[n].key, j, n) == Spent(p, false, calls, calls[n].key, j, n)
    {
      SameSpending(p, calls, calls[n].key, j, n);
    }
  }

  lemma {:induction false} BoundedByRefill(p: Params, calls: seq<Call>, key: string, from: nat, until: nat)
    requires p.capacity >= 0.0 && p.refill >= 0.0 && RefillsWithinTtl(p)
    requires ClockNeverGoesBack(calls) && from < until <= |calls|
    requires forall i :: 0 <= i < |calls| ==> calls[i].cost >= 0.0
    ensures Spent(p, false, calls, key, from, until) <= p.capacity + Refill(p, calls[until - 1].now - calls[from].now)
    decreases until - from
  {
    var first, last := calls[from], calls[until - 1];
    RefillGrows(p, 0.0, last.now - first.now);
    if first.key != key {
      SpentSkips(p, calls, key, from, until);
      if from + 1 < until {
        BoundedByRefill(p, calls, key, from + 1, until);
        RefillGrows(p, last.now - calls[from + 1].now, last.now - first.now);
      }
    } else if last.key == key && Allowed(p, false, calls, until - 1) {
      AllowedIffEveryWindowFits(p, calls, until - 1);
      FitsEither(p, false, calls, key, until - 1, last.cost, last.now);
      assert Spent(p, false, calls, key, from, until) == Spent(p, false, calls, key, from, until - 1) + last.cost;
    } else if from < until - 1 {
      BoundedByRefill(p, calls, key, from, until - 1);
      RefillGrows(p, calls[until - 2].now - first.now, last.now - first.now);
    }
  }

  // No stretch of a run grants a key more than a burst plus what refills during the stretch.
  lemma GlobalBound(p: Params, calls: seq<Call>, key: string, from: nat, until: nat)
    requires p.capacity >= 0.0 && p.refill >= 0.0 && RefillsWithinTtl(p)
    requires ClockNeverGoesBack(calls) && from < until <= |calls|
    requires forall i :: 0 <= i < |calls| ==> calls[i].cost >= 0.0
    ensures var stretch := calls[until - 1].now - calls[from].now;
            Spent(p, false, calls, key, from, until) <= p.capacity + stretch * p.refill
  {
    BoundedByRefill(p, calls, key, from, until);
    RefillIsLinear(p, calls[until - 1].now - calls[from].now);
  }

  lemma RefillIsLinear(p: Params, elapsed: real)
    ensures Refill(p, elapsed) == elapsed * p.refill
  {
  }

  lemma {:induction false} SpentSkips(p: Params, calls: seq<Call>, key: string, from: nat, until: nat)
    requires from < until <= |calls| && calls[from].key != key
    ensures Spent(p, false, calls, key, from, until) == Spent(p, false, calls, key, from + 1, until)
    decreases until
  {
    if from + 1 < until {
      SpentSkips(p, calls, key, from, until - 1);
    }
  }
}
