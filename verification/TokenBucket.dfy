/**
 The token bucket of app/middleware/rate_limit.py: the Lua script as an atomic step over a Redis hash
 that expires, and what it promises over every sequence of calls. Tokens and times are reals; `now` is
 the worker's clock (ARGV[3]), `at` is the Redis server's clock, which alone decides expiry.
 */
module TokenBucket {
  import opened Basics

  const MARGIN := 60

  datatype Limit = Limit(capacity: real, rate: real, cost: real)

  /** What the constants of the route table and the fixed cost of one guarantee. */
  predicate Positive(lim: Limit) {
    lim.capacity > 0.0 && lim.rate > 0.0 && lim.cost > 0.0
  }

  datatype Bucket = Bucket(tokens: real, last: real)

  datatype Verdict = Verdict(allowed: bool, remaining: int, retryAfter: int)

  /** What `elapsed` seconds refill. */
  function Gain(lim: Limit, elapsed: real): real {
    elapsed * lim.rate
  }

  /** The tokens a call at `now` finds: lazy refill, capped; a missing hash is a full bucket. */
  function Level(lim: Limit, hash: Option<Bucket>, now: real): real {
    var tokens := if hash.Some? then hash.value.tokens else lim.capacity;
    var last := if hash.Some? then hash.value.last else now;
    Min(lim.capacity, tokens + Gain(lim, Max(0.0, now - last)))
  }

  function Eval(lim: Limit, hash: Option<Bucket>, now: real): (Verdict, Bucket)
    requires Positive(lim)
  {
    var tokens := Level(lim, hash, now);
    if tokens >= lim.cost then
      (Verdict(true, (tokens - lim.cost).Floor, 0), Bucket(tokens - lim.cost, now))
    else
      (Verdict(false, 0, Ceil((lim.cost - tokens) / lim.rate)), Bucket(tokens, now))
  }

  /** The time to live that the granting branch sets; the denying branch writes it as `TtlOnDenial`. */
  function TtlOnGrant(lim: Limit): int
    requires Positive(lim)
  {
    Ceil(lim.capacity / lim.rate + MARGIN as real)
  }

  function TtlOnDenial(lim: Limit): int
    requires Positive(lim)
  {
    Ceil(lim.capacity / lim.rate) + MARGIN
  }

  /** Both EXPIRE expressions give the same time to live, and it outlasts a full refill by the margin. */
  lemma SameTtl(lim: Limit)
    requires Positive(lim)
    ensures TtlOnGrant(lim) == TtlOnDenial(lim)
    ensures TtlOnGrant(lim) as real - 60.0 >= lim.capacity / lim.rate
  {
    var fill := lim.capacity / lim.rate;
    assert (Ceil(fill) + MARGIN) as real == Ceil(fill) as real + 60.0;
    assert Ceil(fill + MARGIN as real) < Ceil(fill) + MARGIN + 1;
    assert Ceil(fill + MARGIN as real) > Ceil(fill) + MARGIN - 1;
  }

  // ----- The hash in Redis ------------------------------------------------------------------------

  datatype Stored = Stored(bucket: Bucket, deadline: real)

  function Visible(key: Option<Stored>, at: real): Option<Bucket> {
    if key.Some? && at < key.value.deadline then Some(key.value.bucket) else None
  }

  /** One run of the script against a key that may have expired. */
  function Step(lim: Limit, key: Option<Stored>, now: real, at: real): (Verdict, Stored)
    requires Positive(lim)
  {
    var (verdict, bucket) := Eval(lim, Visible(key, at), now);
    var ttl := if verdict.allowed then TtlOnGrant(lim) else TtlOnDenial(lim);
    (verdict, Stored(bucket, at + ttl as real))
  }

  lemma ExpiryTimes(lim: Limit)
    requires Positive(lim)
    ensures TtlOnGrant(lim) == Ceil(lim.capacity / lim.rate + 60.0)
    ensures TtlOnDenial(lim) == Ceil(lim.capacity / lim.rate) + 60
  {
  }

  lemma GrantStep(lim: Limit, key: Option<Stored>, now: real, at: real)
    requires Positive(lim)
    ensures
      var tokens := Level(lim, Visible(key, at), now);
      tokens >= lim.cost ==>
        Step(lim, key, now, at)
          == (Verdict(true, (tokens - lim.cost).Floor, 0),
              Stored(Bucket(tokens - lim.cost, now), at + TtlOnGrant(lim) as real))
  {
    hide Level, TtlOnGrant, TtlOnDenial, Ceil;
  }

  lemma DenialStep(lim: Limit, key: Option<Stored>, now: real, at: real)
    requires Positive(lim)
    ensures
      var tokens := Level(lim, Visible(key, at), now);
      tokens < lim.cost ==>
        Step(lim, key, now, at)
          == (Verdict(false, 0, Ceil((lim.cost - tokens) / lim.rate)),
              Stored(Bucket(tokens, now), at + TtlOnDenial(lim) as real))
  {
    hide Level, TtlOnGrant, TtlOnDenial, Ceil;
  }

  /** The Redis key of one client and path, updated in place by the script. */
  class BucketKey {
    var hash: Option<Bucket>
    var deadline: real

    function Contents(): Option<Stored>
      reads this
    {
      if hash.Some? then Some(Stored(hash.value, deadline)) else None
    }

    constructor ()
      ensures Contents() == None
    {
      hash, deadline := None, 0.0;
    }

    /** HMGET and lazy refill: the first half of the Lua script. */
    method Refill(capacity: real, rate: real, now: real, ghost cost: real) returns (tokens: real)
      ensures tokens == Level(Limit(capacity, rate, cost), hash, now)
    {
      tokens := if hash.Some? then hash.value.tokens else capacity;
      var last := if hash.Some? then hash.value.last else now;
      var elapsed := Max(0.0, now - last);
      tokens := Min(capacity, tokens + elapsed * rate);
    }

    /** HMSET and EXPIRE. */
    method Store(tokens: real, now: real, at: real, ttl: int)
      modifies this
      ensures Contents() == Some(Stored(Bucket(tokens, now), at + ttl as real))
    {
      hash := Some(Bucket(tokens, now));
      deadline := at + ttl as real;
    }

    /** The Lua script; Redis has dropped the key by then if it has expired. */
    method Script(capacity: real, rate: real, now: real, cost: real, at: real)
      returns (allowed: bool, remaining: int, retryAfter: int)
      requires Positive(Limit(capacity, rate, cost))
      modifies this
      ensures Contents().Some?
      ensures (Verdict(allowed, remaining, retryAfter), Contents().value)
           == Step(Limit(capacity, rate, cost), old(Contents()), now, at)
      ensures allowed ==> remaining as real <= Contents().value.bucket.tokens < remaining as real + 1.0
      ensures allowed ==> retryAfter == 0
      ensures !allowed ==> remaining == 0 && Contents().value.bucket.tokens < cost
      ensures Contents().value.bucket.last == now && Contents().value.deadline >= at + capacity / rate + 60.0
    {
      hide Level, TtlOnGrant, TtlOnDenial, Ceil, Step;
      ghost var lim, key := Limit(capacity, rate, cost), Contents();
      ExpiryTimes(lim);
      SameTtl(lim);
      GrantStep(lim, key, now, at);
      DenialStep(lim, key, now, at);
      if hash.Some? && at >= deadline {
        hash := None;
      }
      assert hash == Visible(key, at);
      var tokens := Refill(capacity, rate, now, cost);
      if tokens >= cost {
        tokens := tokens - cost;
        Store(tokens, now, at, Ceil(capacity / rate + 60.0));
        return true, tokens.Floor, 0;
      } else {
        Store(tokens, now, at, Ceil(capacity / rate) + 60);
        return false, 0, Ceil((cost - tokens) / rate);
      }
    }
  }

  // ----- When key expiry shows --------------------------------------------------------------------

  datatype Call = Call(now: real, at: real)

  function RunKey(lim: Limit, key: Option<Stored>, calls: seq<Call>): (seq<Verdict>, Option<Stored>)
    requires Positive(lim)
    decreases |calls|
  {
    if calls == [] then ([], key)
    else
      var (v, k) := Step(lim, key, calls[0].now, calls[0].at);
      var (vs, end) := RunKey(lim, Some(k), calls[1..]);
      ([v] + vs, end)
  }

  /** The tokens that the calls of a run find. */
  function Found(lim: Limit, key: Option<Stored>, calls: seq<Call>): seq<real>
    requires Positive(lim)
    decreases |calls|
  {
    if calls == [] then []
    else
      var k := Step(lim, key, calls[0].now, calls[0].at).1;
      [Level(lim, Visible(key, calls[0].at), calls[0].now)] + Found(lim, Some(k), calls[1..])
  }

  /** The same script over a hash that is never expired. */
  function Run(lim: Limit, hash: Option<Bucket>, nows: seq<real>): (seq<Verdict>, Option<Bucket>)
    requires Positive(lim)
    decreases |nows|
  {
    if nows == [] then ([], hash)
    else
      var (v, b) := Eval(lim, hash, nows[0]);
      var (vs, end) := Run(lim, Some(b), nows[1..]);
      ([v] + vs, end)
  }

  function FoundForever(lim: Limit, hash: Option<Bucket>, nows: seq<real>): seq<real>
    requires Positive(lim)
    decreases |nows|
  {
    if nows == [] then []
    else [Level(lim, hash, nows[0])] + FoundForever(lim, Some(Eval(lim, hash, nows[0]).1), nows[1..])
  }

  function Nows(calls: seq<Call>): seq<real> {
    seq(|calls|, i requires 0 <= i < |calls| => calls[i].now)
  }

  function BucketOf(key: Option<Stored>): Option<Bucket> {
    if key.Some? then Some(key.value.bucket) else None
  }

  predicate Expired(key: Option<Stored>, at: real) {
    key.Some? && at >= key.value.deadline
  }

  /** A bucket is full again by the time its key is found expired. */
  predicate FullIfExpired(lim: Limit, key: Option<Stored>, call: Call) {
    Expired(key, call.at) ==> Level(lim, BucketOf(key), call.now) == lim.capacity
  }

  predicate Harmless(lim: Limit, key: Option<Stored>, calls: seq<Call>)
    requires Positive(lim)
    decreases |calls|
  {
    calls == [] ||
    (FullIfExpired(lim, key, calls[0]) &&
     Harmless(lim, Some(Step(lim, key, calls[0].now, calls[0].at).1), calls[1..]))
  }

  predicate WithinCapacity(lim: Limit, hash: Option<Bucket>) {
    hash.Some? ==> 0.0 <= hash.value.tokens <= lim.capacity
  }

  lemma EvalWithinCapacity(lim: Limit, hash: Option<Bucket>, now: real)
    requires Positive(lim) && WithinCapacity(lim, hash)
    ensures 0.0 <= Level(lim, hash, now) <= lim.capacity
    ensures hash.None? ==> Level(lim, hash, now) == lim.capacity
    ensures WithinCapacity(lim, Some(Eval(lim, hash, now).1)) && Eval(lim, hash, now).1.last == now
  {
    var last := if hash.Some? then hash.value.last else now;
    NonNegative(Max(0.0, now - last), lim.rate);
  }

  lemma NonNegative(x: real, y: real)
    requires x >= 0.0 && y >= 0.0
    ensures x * y >= 0.0
  {
  }

  /** A call sees of the hash only the level it finds. */
  lemma SameLevelSameEval(lim: Limit, x: Option<Bucket>, y: Option<Bucket>, now: real)
    requires Positive(lim) && Level(lim, x, now) == Level(lim, y, now)
    ensures Eval(lim, x, now) == Eval(lim, y, now)
  {
  }

  /** What one step of the script has to do with one step over the bucket it found or had lost. */
  lemma StepOverBucket(lim: Limit, key: Option<Stored>, call: Call)
    requires Positive(lim)
    ensures
      var (v, k) := Step(lim, key, call.now, call.at);
      var found, kept := Level(lim, Visible(key, call.at), call.now), Level(lim, BucketOf(key), call.now);
      && found == (if Expired(key, call.at) then lim.capacity else kept)
      && (found == kept <==> FullIfExpired(lim, key, call))
      && (found == kept ==> (v, k.bucket) == Eval(lim, BucketOf(key), call.now))
      && k.deadline == call.at + TtlOnGrant(lim) as real
  {
    SameTtl(lim);
    EvalWithinCapacity(lim, None, call.now);
    hide Level, Gain, TtlOnGrant, TtlOnDenial;
    if Level(lim, Visible(key, call.at), call.now) == Level(lim, BucketOf(key), call.now) {
      SameLevelSameEval(lim, Visible(key, call.at), BucketOf(key), call.now);
    }
  }

  lemma ConsEqual<T>(x: T, xs: seq<T>, y: T, ys: seq<T>)
    ensures [x] + xs == [y] + ys <==> x == y && xs == ys
  {
    if [x] + xs == [y] + ys {
      assert xs == ([x] + xs)[1..] && ys == ([y] + ys)[1..];
      assert x == ([x] + xs)[0] && y == ([y] + ys)[0];
    }
  }

  /**
   For every call sequence, whatever the clocks do: an expiring key finds the same tokens at every call as
   one that never expires if and only if the bucket was full each time its key was found expired. Then
   every decision and the final bucket are the same too.
   */
  lemma {:induction false} ExpiryIsInvisibleIff(lim: Limit, key: Option<Stored>, calls: seq<Call>)
    requires Positive(lim)
    ensures Found(lim, key, calls) == FoundForever(lim, BucketOf(key), Nows(calls)) <==> Harmless(lim, key, calls)
    ensures Harmless(lim, key, calls) ==>
              RunKey(lim, key, calls).0 == Run(lim, BucketOf(key), Nows(calls)).0 &&
              BucketOf(RunKey(lim, key, calls).1) == Run(lim, BucketOf(key), Nows(calls)).1
    decreases |calls|
  {
    hide Level, Step, Eval, FullIfExpired;
    if calls != [] {
      var call := calls[0];
      var k := Step(lim, key, call.now, call.at).1;
      var b := Eval(lim, BucketOf(key), call.now).1;
      assert Nows(calls)[0] == call.now && Nows(calls)[1..] == Nows(calls[1..]);
      StepOverBucket(lim, key, call);
      ExpiryIsInvisibleIff(lim, Some(k), calls[1..]);
      ConsEqual(Level(lim, Visible(key, call.at), call.now), Found(lim, Some(k), calls[1..]),
                Level(lim, BucketOf(key), call.now), FoundForever(lim, Some(b), Nows(calls[1..])));
    }
  }

  /** Between consecutive calls the Redis clock never gains more than the margin on the workers' clock. */
  predicate ClocksAgree(calls: seq<Call>) {
    forall i :: 0 < i < |calls| ==> Drift(calls[i - 1], calls[i]) <= MARGIN as real
  }

  function Drift(earlier: Call, later: Call): real {
    (later.at - earlier.at) - (later.now - earlier.now)
  }

  /** A bucket left alone for at least capacity / rate is full. */
  lemma FullAfterIdle(lim: Limit, b: Bucket, now: real)
    requires Positive(lim) && 0.0 <= b.tokens && now - b.last >= lim.capacity / lim.rate
    ensures Level(lim, Some(b), now) == lim.capacity
  {
    var idle := now - b.last;
    assert idle * lim.rate >= lim.capacity by {
      assert lim.capacity / lim.rate * lim.rate == lim.capacity;
      NonNegative(idle - lim.capacity / lim.rate, lim.rate);
    }
  }

  /** The key as the call before has left it. */
  predicate LeftBy(lim: Limit, k: Stored, previous: Call)
    requires Positive(lim)
  {
    && 0.0 <= k.bucket.tokens <= lim.capacity
    && k.bucket.last == previous.now
    && k.deadline == previous.at + TtlOnGrant(lim) as real
  }

  lemma StepLeaves(lim: Limit, key: Option<Stored>, call: Call)
    requires Positive(lim) && WithinCapacity(lim, BucketOf(key))
    ensures LeftBy(lim, Step(lim, key, call.now, call.at).1, call)
  {
    SameTtl(lim);
    EvalWithinCapacity(lim, Visible(key, call.at), call.now);
    hide Level, TtlOnGrant, TtlOnDenial;
  }

  lemma {:induction false} AgreeingClocksFrom(lim: Limit, k: Stored, previous: Call, calls: seq<Call>)
    requires Positive(lim) && ClocksAgree([previous] + calls) && LeftBy(lim, k, previous)
    ensures Harmless(lim, Some(k), calls)
    decreases |calls|
  {
    hide Level, Step, TtlOnGrant;
    if calls != [] {
      var call := calls[0];
      SameTtl(lim);
      assert ([previous] + calls)[1] == call && ([previous] + calls)[0] == previous;
      if call.at >= k.deadline {
        FullAfterIdle(lim, k.bucket, call.now);
      }
      StepLeaves(lim, Some(k), call);
      assert [call] + calls[1..] == ([previous] + calls)[1..];
      AgreeingClocksFrom(lim, Step(lim, Some(k), call.now, call.at).1, call, calls[1..]);
    }
  }

  /** The margin of 60 seconds is what clocks may drift: within it expiry shows nowhere. */
  lemma AgreeingClocksAreHarmless(lim: Limit, calls: seq<Call>)
    requires Positive(lim) && ClocksAgree(calls)
    ensures Harmless(lim, None, calls)
  {
    hide Level, Step;
    if calls != [] {
      StepLeaves(lim, None, calls[0]);
      assert [calls[0]] + calls[1..] == calls;
      AgreeingClocksFrom(lim, Step(lim, None, calls[0].now, calls[0].at).1, calls[0], calls[1..]);
    }
  }

  /** Expiring the key changes no decision and no token count, for every run whose clocks agree. */
  lemma ExpiryIsInvisible(lim: Limit, calls: seq<Call>)
    requires Positive(lim) && ClocksAgree(calls)
    ensures Found(lim, None, calls) == FoundForever(lim, None, Nows(calls))
    ensures RunKey(lim, None, calls).0 == Run(lim, None, Nows(calls)).0
    ensures BucketOf(RunKey(lim, None, calls).1) == Run(lim, None, Nows(calls)).1
  {
    hide Found, FoundForever, RunKey, Run, Harmless, ClocksAgree;
    AgreeingClocksAreHarmless(lim, calls);
    ExpiryIsInvisibleIff(lim, None, calls);
  }

  /** A call after `previous`, drifting by `drift` from it, that finds other tokens than without expiry. */
  predicate Deceived(lim: Limit, k: Stored, previous: Call, call: Call, drift: real) {
    && call.now >= previous.now && call.at >= previous.at && Drift(previous, call) == drift
    && Level(lim, Visible(Some(k), call.at), call.now) != Level(lim, Some(k.bucket), call.now)
  }

  /** How long a bucket takes to fill up from what is in it. */
  function FillTime(lim: Limit, b: Bucket): real
    requires Positive(lim)
  {
    (lim.capacity - b.tokens) / lim.rate
  }

  /**
   What clocks may drift, exactly: after a call that left the bucket less than full, a given drift can deceive
   the next call if and only if it exceeds the time to live less what is left to fill.
   */
  lemma DeceivedIff(lim: Limit, k: Stored, previous: Call, drift: real)
    requires Positive(lim) && LeftBy(lim, k, previous) && k.bucket.tokens < lim.capacity
    ensures (exists call :: Deceived(lim, k, previous, call, drift)) <==>
              drift > TtlOnGrant(lim) as real - FillTime(lim, k.bucket)
  {
    hide Deceived, LeftBy, TtlOnGrant, FillTime;
    if call :| Deceived(lim, k, previous, call, drift) {
      DeceivedBeyondLimit(lim, k, previous, call, drift);
    }
    if drift > TtlOnGrant(lim) as real - FillTime(lim, k.bucket) {
      DeceivingCall(lim, k, previous, drift);
    }
  }

  /** The margin is sharp: it is that limit for a drained bucket whose refill takes whole seconds, and never more. */
  lemma MarginIsSharp(lim: Limit, b: Bucket)
    requires Positive(lim) && 0.0 <= b.tokens <= lim.capacity
    ensures TtlOnGrant(lim) as real - FillTime(lim, b) >= 60.0
    ensures TtlOnGrant(lim) as real - FillTime(lim, b) == 60.0 <==>
              b.tokens == 0.0 && Ceil(lim.capacity / lim.rate) as real == lim.capacity / lim.rate
  {
    SameTtl(lim);
    var fill, full := FillTime(lim, b), lim.capacity / lim.rate;
    assert fill <= full && (fill == full <==> b.tokens == 0.0) by {
      assert fill * lim.rate == lim.capacity - b.tokens && full * lim.rate == lim.capacity;
      if fill > full {
        Increases(full, fill, lim.rate);
      } else if fill < full {
        Increases(fill, full, lim.rate);
      }
    }
  }

  lemma DeceivedBeyondLimit(lim: Limit, k: Stored, previous: Call, call: Call, drift: real)
    requires Positive(lim) && LeftBy(lim, k, previous) && Deceived(lim, k, previous, call, drift)
    ensures drift > TtlOnGrant(lim) as real - FillTime(lim, k.bucket)
  {
    hide Level, TtlOnGrant, FillTime;
    EvalWithinCapacity(lim, None, call.now);
    FillsUp(lim, k.bucket, call.now - previous.now);
  }

  lemma DeceivingCall(lim: Limit, k: Stored, previous: Call, drift: real)
    requires Positive(lim) && LeftBy(lim, k, previous) && k.bucket.tokens < lim.capacity
    requires drift > TtlOnGrant(lim) as real - FillTime(lim, k.bucket)
    ensures exists call :: Deceived(lim, k, previous, call, drift)
  {
    var wait := Max(0.0, TtlOnGrant(lim) as real - drift);
    var call := Call(previous.now + wait, previous.at + wait + drift);
    SameTtl(lim);
    assert lim.capacity / lim.rate > 0.0;
    hide TtlOnGrant, Level, FillTime;
    TakesTime(lim, k.bucket);
    FillsUp(lim, k.bucket, wait);
    EvalWithinCapacity(lim, None, call.now);
    assert Visible(Some(k), call.at) == None;
    assert Deceived(lim, k, previous, call, drift);
  }

  lemma TakesTime(lim: Limit, b: Bucket)
    requires Positive(lim) && b.tokens < lim.capacity
    ensures FillTime(lim, b) > 0.0
  {
  }

  /** A bucket is full exactly from its fill time on. */
  lemma FillsUp(lim: Limit, b: Bucket, wait: real)
    requires Positive(lim) && b.tokens <= lim.capacity && wait >= 0.0
    ensures Level(lim, Some(b), b.last + wait) == lim.capacity <==> wait >= FillTime(lim, b)
  {
    var fill := FillTime(lim, b);
    assert fill * lim.rate == lim.capacity - b.tokens;
    if wait < fill {
      Increases(wait, fill, lim.rate);
    } else if wait > fill {
      Increases(fill, wait, lim.rate);
    }
  }

  lemma Increases(x: real, y: real, z: real)
    requires x < y && z > 0.0
    ensures x * z < y * z
  {
    assert (y - x) * z > 0.0;
  }

  // ----- Conservation of tokens -------------------------------------------------------------------

  function Granted(vs: seq<Verdict>): nat {
    if vs == [] then 0 else (if vs[0].allowed then 1 else 0) + Granted(vs[1..])
  }

  /** What the granted calls of a run paid. */
  function Spent(lim: Limit, vs: seq<Verdict>): real {
    if vs == [] then 0.0 else (if vs[0].allowed then lim.cost else 0.0) + Spent(lim, vs[1..])
  }

  function Paid(lim: Limit, vs: seq<Verdict>): real {
    Granted(vs) as real * lim.cost
  }

  lemma {:induction false} SpentIsGrantedTimesCost(lim: Limit, vs: seq<Verdict>)
    ensures Spent(lim, vs) == Paid(lim, vs)
  {
    if vs != [] {
      SpentIsGrantedTimesCost(lim, vs[1..]);
      Distribute(lim.cost, if vs[0].allowed then 1.0 else 0.0, Granted(vs[1..]) as real);
    }
  }

  /** The total of the forward steps of the worker clock; a backward step counts as nothing. */
  function ForwardTime(last: real, nows: seq<real>): real
    decreases |nows|
  {
    if nows == [] then 0.0 else Max(0.0, nows[0] - last) + ForwardTime(nows[0], nows[1..])
  }

  /** What those forward steps refill, ignoring the cap. */
  function Refill(lim: Limit, last: real, nows: seq<real>): real
    decreases |nows|
  {
    if nows == [] then 0.0 else Gain(lim, Max(0.0, nows[0] - last)) + Refill(lim, nows[0], nows[1..])
  }

  function Inflow(lim: Limit, last: real, nows: seq<real>): real {
    ForwardTime(last, nows) * lim.rate
  }

  lemma {:induction false} RefillIsRateTimesForwardTime(lim: Limit, last: real, nows: seq<real>)
    ensures Refill(lim, last, nows) == Inflow(lim, last, nows)
    decreases |nows|
  {
    if nows != [] {
      RefillIsRateTimesForwardTime(lim, nows[0], nows[1..]);
      Distribute(lim.rate, Max(0.0, nows[0] - last), ForwardTime(nows[0], nows[1..]));
    }
  }

  lemma Distribute(x: real, y: real, z: real)
    ensures (y + z) * x == y * x + z * x
  {
  }

  function Tokens(lim: Limit, hash: Option<Bucket>): real {
    if hash.Some? then hash.value.tokens else lim.capacity
  }

  function LastRefill(hash: Option<Bucket>, now: real): real {
    if hash.Some? then hash.value.last else now
  }

  /** What a call finds beyond the refilled bucket because its key has expired. */
  function Gift(lim: Limit, key: Option<Stored>, call: Call): real {
    if Expired(key, call.at) then lim.capacity - Level(lim, BucketOf(key), call.now) else 0.0
  }

  function Gifts(lim: Limit, key: Option<Stored>, calls: seq<Call>): real
    requires Positive(lim)
    decreases |calls|
  {
    if calls == [] then 0.0
    else Gift(lim, key, calls[0]) + Gifts(lim, Some(Step(lim, key, calls[0].now, calls[0].at).1), calls[1..])
  }

  /** No refill of the run overflows the capacity. */
  predicate CapNeverBites(lim: Limit, key: Option<Stored>, calls: seq<Call>)
    requires Positive(lim)
    decreases |calls|
  {
    calls == [] ||
    (var hash, now := BucketOf(key), calls[0].now;
     Tokens(lim, hash) + Gain(lim, Max(0.0, now - LastRefill(hash, now))) <= lim.capacity &&
     CapNeverBites(lim, Some(Step(lim, key, now, calls[0].at).1), calls[1..]))
  }

  /** Expiry gives nothing away exactly where it is harmless; agreeing clocks make it so. */
  lemma {:induction false} GiftsShowHarm(lim: Limit, key: Option<Stored>, calls: seq<Call>)
    requires Positive(lim)
    ensures Gifts(lim, key, calls) >= 0.0
    ensures Gifts(lim, key, calls) == 0.0 <==> Harmless(lim, key, calls)
    decreases |calls|
  {
    hide Step;
    if calls != [] {
      GiftsShowHarm(lim, Some(Step(lim, key, calls[0].now, calls[0].at).1), calls[1..]);
    }
  }

  /** One call: what it grants and leaves is what was there, the refill and the gift, less what the cap cuts off. */
  lemma StepConserves(lim: Limit, key: Option<Stored>, call: Call)
    requires Positive(lim) && WithinCapacity(lim, BucketOf(key))
    ensures
      var (v, k) := Step(lim, key, call.now, call.at);
      var hash := BucketOf(key);
      var gain := Gain(lim, Max(0.0, call.now - LastRefill(hash, call.now)));
      var out := (if v.allowed then lim.cost else 0.0) + k.bucket.tokens;
      var supply := Tokens(lim, hash) + gain + Gift(lim, key, call);
      && out <= supply && (out == supply <==> Tokens(lim, hash) + gain <= lim.capacity)
      && 0.0 <= k.bucket.tokens <= lim.capacity && k.bucket.last == call.now
  {
    EvalWithinCapacity(lim, BucketOf(key), call.now);
    EvalWithinCapacity(lim, Visible(key, call.at), call.now);
    hide Gain, TtlOnGrant, TtlOnDenial, Ceil;
  }

  /** The refill time that the first call of a run sees; of no matter when there is none. */
  function FirstRefill(key: Option<Stored>, calls: seq<Call>): real {
    if calls == [] then 0.0 else LastRefill(BucketOf(key), calls[0].now)
  }

  /** What the whole run has, its first call and the rest have between them. */
  lemma RunUnfolds(lim: Limit, key: Option<Stored>, calls: seq<Call>)
    requires Positive(lim) && calls != []
    ensures
      var (v, k) := Step(lim, key, calls[0].now, calls[0].at);
      var gain := Gain(lim, Max(0.0, calls[0].now - FirstRefill(key, calls)));
      && RunKey(lim, key, calls).1 == RunKey(lim, Some(k), calls[1..]).1
      && Spent(lim, RunKey(lim, key, calls).0)
           == (if v.allowed then lim.cost else 0.0) + Spent(lim, RunKey(lim, Some(k), calls[1..]).0)
      && Gifts(lim, key, calls) == Gift(lim, key, calls[0]) + Gifts(lim, Some(k), calls[1..])
      && Refill(lim, FirstRefill(key, calls), Nows(calls)) == gain + Refill(lim, calls[0].now, Nows(calls[1..]))
      && (CapNeverBites(lim, key, calls) <==>
            Tokens(lim, BucketOf(key)) + gain <= lim.capacity && CapNeverBites(lim, Some(k), calls[1..]))
  {
    hide Step, Gain, Gift, Level;
    var (v, k) := Step(lim, key, calls[0].now, calls[0].at);
    var vs := RunKey(lim, Some(k), calls[1..]).0;
    assert RunKey(lim, key, calls).0 == [v] + vs && ([v] + vs)[1..] == vs;
    assert Nows(calls)[0] == calls[0].now && Nows(calls)[1..] == Nows(calls[1..]);
  }

  lemma SameRefill(lim: Limit, k: Stored, call: Call, calls: seq<Call>)
    requires k.bucket.last == call.now
    ensures Refill(lim, FirstRefill(Some(k), calls), Nows(calls)) == Refill(lim, call.now, Nows(calls))
  {
    hide Gain;
  }

  lemma NothingRun(lim: Limit, key: Option<Stored>)
    requires Positive(lim)
    ensures RunKey(lim, key, []) == ([], key) && Spent(lim, []) == 0.0 && Gifts(lim, key, []) == 0.0
    ensures Refill(lim, FirstRefill(key, []), Nows([])) == 0.0 && CapNeverBites(lim, key, [])
  {
  }

  lemma {:induction false} Conserved(lim: Limit, key: Option<Stored>, calls: seq<Call>)
    requires Positive(lim) && WithinCapacity(lim, BucketOf(key))
    ensures
      var (vs, end) := RunKey(lim, key, calls);
      var out := Spent(lim, vs) + Tokens(lim, BucketOf(end));
      var supply :=
        Tokens(lim, BucketOf(key)) + Refill(lim, FirstRefill(key, calls), Nows(calls)) + Gifts(lim, key, calls);
      && WithinCapacity(lim, BucketOf(end))
      && out <= supply
      && (out == supply <==> CapNeverBites(lim, key, calls))
    decreases |calls|
  {
    hide Gain, Step, Gift, RunKey, Spent, Gifts, Refill, CapNeverBites, Nows, Level;
    if calls == [] {
      NothingRun(lim, key);
    } else {
      var k := Step(lim, key, calls[0].now, calls[0].at).1;
      StepConserves(lim, key, calls[0]);
      Conserved(lim, Some(k), calls[1..]);
      RunUnfolds(lim, key, calls);
      SameRefill(lim, k, calls[0], calls[1..]);
    }
  }

  /**
   For every sequence of calls, whatever the two clocks do: what was granted plus what is left never exceeds
   what was there plus what the forward steps of the worker clock refill plus what expiry gave away, exactly
   so iff the cap never bites. From a fresh key, agreeing clocks give nothing away.
   */
  lemma TokensAreConserved(lim: Limit, key: Option<Stored>, calls: seq<Call>)
    requires Positive(lim) && WithinCapacity(lim, BucketOf(key))
    ensures
      var (vs, end) := RunKey(lim, key, calls);
      var last := FirstRefill(key, calls);
      var out := Paid(lim, vs) + Tokens(lim, BucketOf(end));
      var supply := Tokens(lim, BucketOf(key)) + Inflow(lim, last, Nows(calls));
      && 0.0 <= Tokens(lim, BucketOf(end)) <= lim.capacity
      && out <= supply + Gifts(lim, key, calls)
      && (out == supply + Gifts(lim, key, calls) <==> CapNeverBites(lim, key, calls))
      && (key.None? && ClocksAgree(calls) ==> out <= supply)
  {
    WithinBounds(lim, BucketOf(RunKey(lim, key, calls).1));
    hide *;
    var (vs, end) := RunKey(lim, key, calls);
    var last := FirstRefill(key, calls);
    Conserved(lim, key, calls);
    SpentIsGrantedTimesCost(lim, vs);
    RefillIsRateTimesForwardTime(lim, last, Nows(calls));
    if key.None? && ClocksAgree(calls) {
      AgreeingClocksAreHarmless(lim, calls);
      GiftsShowHarm(lim, key, calls);
    }
  }

  lemma WithinBounds(lim: Limit, hash: Option<Bucket>)
    requires Positive(lim)
    ensures WithinCapacity(lim, hash) ==> 0.0 <= Tokens(lim, hash) <= lim.capacity
  {
  }

  predicate Monotone(nows: seq<real>) {
    forall i, j :: 0 <= i <= j < |nows| ==> nows[i] <= nows[j]
  }

  /**
   A window on a monotone worker clock grants at most the burst plus the sustained rate times the window,
   plus what expiry gives away between its calls: nothing, if the two clocks agree there.
   */
  lemma WindowGrant(lim: Limit, key: Option<Stored>, calls: seq<Call>)
    requires Positive(lim) && WithinCapacity(lim, BucketOf(key)) && calls != [] && Monotone(Nows(calls))
    ensures
      var k := Step(lim, key, calls[0].now, calls[0].at).1;
      var paid := Paid(lim, RunKey(lim, key, calls).0);
      var bound := lim.capacity + (calls[|calls| - 1].now - calls[0].now) * lim.rate;
      && paid <= bound + Gifts(lim, Some(k), calls[1..])
      && (ClocksAgree(calls) ==> paid <= bound)
  {
    hide *;
    SpentIsGrantedTimesCost(lim, RunKey(lim, key, calls).0);
    SpentInWindow(lim, key, calls);
    RefillInWindow(lim, calls);
    if ClocksAgree(calls) {
      AgreeingClocksGiveNothing(lim, key, calls);
    }
  }

  lemma AgreeingClocksGiveNothing(lim: Limit, key: Option<Stored>, calls: seq<Call>)
    requires Positive(lim) && WithinCapacity(lim, BucketOf(key)) && calls != [] && ClocksAgree(calls)
    ensures Gifts(lim, Some(Step(lim, key, calls[0].now, calls[0].at).1), calls[1..]) == 0.0
  {
    hide Step, ClocksAgree, Harmless, Gifts, LeftBy;
    var k := Step(lim, key, calls[0].now, calls[0].at).1;
    StepLeaves(lim, key, calls[0]);
    assert [calls[0]] + calls[1..] == calls;
    AgreeingClocksFrom(lim, k, calls[0], calls[1..]);
    GiftsShowHarm(lim, Some(k), calls[1..]);
  }

  lemma RefillInWindow(lim: Limit, calls: seq<Call>)
    requires calls != [] && Monotone(Nows(calls))
    ensures Refill(lim, calls[0].now, Nows(calls[1..])) == (calls[|calls| - 1].now - calls[0].now) * lim.rate
  {
    hide ForwardTime, Refill, Gain;
    RefillIsRateTimesForwardTime(lim, calls[0].now, Nows(calls[1..]));
    assert Nows(calls)[1..] == Nows(calls[1..]) && Nows(calls)[0] == calls[0].now;
    ForwardTimeOfMonotone(calls[0].now, Nows(calls[1..]));
  }

  lemma SpentInWindow(lim: Limit, key: Option<Stored>, calls: seq<Call>)
    requires Positive(lim) && WithinCapacity(lim, BucketOf(key)) && calls != []
    ensures
      var k := Step(lim, key, calls[0].now, calls[0].at).1;
      Spent(lim, RunKey(lim, key, calls).0)
        <= lim.capacity + Refill(lim, calls[0].now, Nows(calls[1..])) + Gifts(lim, Some(k), calls[1..])
  {
    hide Gain, Gift, RunKey, Spent, Gifts, Refill, CapNeverBites, Nows, Level;
    var (v, k) := Step(lim, key, calls[0].now, calls[0].at);
    EvalWithinCapacity(lim, Visible(key, calls[0].at), calls[0].now);
    Conserved(lim, Some(k), calls[1..]);
    RunUnfolds(lim, key, calls);
    SameRefill(lim, k, calls[0], calls[1..]);
  }

  lemma {:induction false} ForwardTimeOfMonotone(last: real, nows: seq<real>)
    requires Monotone(nows) && (nows != [] ==> last <= nows[0])
    ensures ForwardTime(last, nows) == if nows == [] then 0.0 else nows[|nows| - 1] - last
    decreases |nows|
  {
    if nows != [] {
      ForwardTimeOfMonotone(nows[0], nows[1..]);
    }
  }

  // ----- Denied calls -----------------------------------------------------------------------------

  /** Two hashes that no call from time `from` on can tell apart. */
  ghost predicate Alike(lim: Limit, x: Option<Bucket>, y: Option<Bucket>, from: real) {
    forall t: real :: t >= from ==> Level(lim, x, t) == Level(lim, y, t)
  }

  /** Refilling twice is refilling once: in the bucket, a denied call only moves the refill time. */
  lemma DenialLeavesLevels(lim: Limit, hash: Option<Bucket>, now: real)
    requires Positive(lim) && WithinCapacity(lim, hash) && (hash.Some? ==> hash.value.last <= now)
    requires !Eval(lim, hash, now).0.allowed
    ensures Alike(lim, Some(Eval(lim, hash, now).1), hash, now)
  {
    var b := Eval(lim, hash, now).1;
    var last := if hash.Some? then hash.value.last else now;
    forall t: real | t >= now
      ensures Level(lim, Some(b), t) == Level(lim, hash, t)
    {
      NonNegative(t - now, lim.rate);
      if hash.Some? {
        Distribute(lim.rate, now - last, t - now);
      }
    }
  }

  /**
   A denied call moves the deadline of the key, and that is all a later call may notice: it finds other
   tokens exactly when one of the two deadlines has passed, the other has not, and the bucket is not full.
   */
  lemma DenialMovesTheDeadline(lim: Limit, k: Stored, call: Call, later: Call)
    requires Positive(lim) && WithinCapacity(lim, Some(k.bucket)) && k.bucket.last <= call.now <= later.now
    requires call.at < k.deadline && !Step(lim, Some(k), call.now, call.at).0.allowed
    ensures
      var k' := Step(lim, Some(k), call.now, call.at).1;
      (Level(lim, Visible(Some(k'), later.at), later.now) != Level(lim, Visible(Some(k), later.at), later.now))
        <==> (Expired(Some(k'), later.at) != Expired(Some(k), later.at)
              && Level(lim, Some(k.bucket), later.now) != lim.capacity)
  {
    hide Level, Gain, TtlOnGrant, TtlOnDenial, Ceil;
    DenialLeavesLevels(lim, Some(k.bucket), call.now);
    EvalWithinCapacity(lim, None, later.now);
  }

  function Erase<T>(xs: seq<T>, keep: seq<bool>): seq<T>
    requires |xs| == |keep|
  {
    if xs == [] then []
    else (if keep[0] then [xs[0]] else []) + Erase(xs[1..], keep[1..])
  }

  lemma {:induction false} EraseNows(calls: seq<Call>, keep: seq<bool>)
    requires |calls| == |keep|
    ensures Nows(Erase(calls, keep)) == Erase(Nows(calls), keep)
    decreases |calls|
  {
    if calls != [] {
      EraseNows(calls[1..], keep[1..]);
      assert Nows(calls)[0] == calls[0].now && Nows(calls)[1..] == Nows(calls[1..]);
    }
  }

  /** Without expiry: the kept calls find what they found, and decide what they decided. */
  lemma {:induction false} EraseFrom(lim: Limit, x: Option<Bucket>, y: Option<Bucket>, nows: seq<real>, keep: seq<bool>,
                                     from: real)
    requires Positive(lim) && WithinCapacity(lim, x) && WithinCapacity(lim, y)
    requires Monotone(nows) && |keep| == |nows| && (nows != [] ==> from <= nows[0])
    requires (x.Some? ==> x.value.last <= from) && (y.Some? ==> y.value.last <= from)
    requires Alike(lim, x, y, from)
    requires DeniedUnlessKept(Run(lim, y, nows).0, keep)
    ensures |Run(lim, y, nows).0| == |keep| == |FoundForever(lim, y, nows)|
    ensures Run(lim, x, Erase(nows, keep)).0 == Erase(Run(lim, y, nows).0, keep)
    ensures FoundForever(lim, x, Erase(nows, keep)) == Erase(FoundForever(lim, y, nows), keep)
    ensures nows != [] && keep[|keep| - 1] ==> Run(lim, x, Erase(nows, keep)).1 == Run(lim, y, nows).1
    decreases |nows|
  {
    hide Eval, Level;
    if nows != [] {
      var now := nows[0];
      var (v, b) := Eval(lim, y, now);
      var (vs, end) := Run(lim, Some(b), nows[1..]);
      var found := FoundForever(lim, Some(b), nows[1..]);
      assert Run(lim, y, nows).0 == [v] + vs && ([v] + vs)[1..] == vs;
      assert FoundForever(lim, y, nows)[1..] == found;
      DeniedTail(v, vs, keep);
      EvalWithinCapacity(lim, y, now);
      if keep[0] {
        assert Level(lim, x, now) == Level(lim, y, now);
        SameLevelSameEval(lim, x, y, now);
        assert Erase(nows, keep) == [now] + Erase(nows[1..], keep[1..]);
        assert ([now] + Erase(nows[1..], keep[1..]))[1..] == Erase(nows[1..], keep[1..]);
        EraseFrom(lim, Some(b), Some(b), nows[1..], keep[1..], now);
      } else {
        DenialLeavesLevels(lim, y, now);
        assert Alike(lim, x, Some(b), now);
        assert Erase(nows, keep) == Erase(nows[1..], keep[1..]);
        EraseFrom(lim, x, Some(b), nows[1..], keep[1..], now);
      }
    }
  }

  predicate DeniedUnlessKept(vs: seq<Verdict>, keep: seq<bool>) {
    |vs| == |keep| && forall i :: 0 <= i < |keep| && !keep[i] ==> !vs[i].allowed
  }

  lemma DeniedTail(v: Verdict, vs: seq<Verdict>, keep: seq<bool>)
    requires DeniedUnlessKept([v] + vs, keep)
    ensures DeniedUnlessKept(vs, keep[1..]) && (!keep[0] ==> !v.allowed)
  {
    assert forall i :: 0 <= i < |vs| ==> vs[i] == ([v] + vs)[i + 1] && keep[1..][i] == keep[i + 1];
    assert ([v] + vs)[0] == v;
  }

  lemma {:induction false} EndsWithLastCall(lim: Limit, key: Option<Stored>, calls: seq<Call>)
    requires Positive(lim) && calls != []
    ensures RunKey(lim, key, calls).1.Some?
    ensures RunKey(lim, key, calls).1.value.deadline == calls[|calls| - 1].at + TtlOnGrant(lim) as real
    decreases |calls|
  {
    hide Step, TtlOnGrant;
    StepOverBucket(lim, key, calls[0]);
    var k := Step(lim, key, calls[0].now, calls[0].at).1;
    if |calls| > 1 {
      EndsWithLastCall(lim, Some(k), calls[1..]);
    }
  }

  lemma {:induction false} LastKept<T>(xs: seq<T>, keep: seq<bool>)
    requires |xs| == |keep| > 0 && keep[|keep| - 1]
    ensures Erase(xs, keep) != [] && Erase(xs, keep)[|Erase(xs, keep)| - 1] == xs[|xs| - 1]
  {
    if |xs| > 1 {
      LastKept(xs[1..], keep[1..]);
    }
  }

  /**
   Under a monotone worker clock, erasing any set of denied calls from a run of the script changes what the
   kept calls find if and only if expiry does harm in the run that is left. Where it does none, no other
   decision changes, and with the last call kept the stored key is the same, deadline included.
   */
  lemma DeniedCallsLeaveNoTrace(lim: Limit, key: Option<Stored>, calls: seq<Call>, keep: seq<bool>)
    requires Positive(lim) && WithinCapacity(lim, BucketOf(key)) && Monotone(Nows(calls)) && |keep| == |calls| > 0
    requires key.Some? ==> key.value.bucket.last <= calls[0].now
    requires Harmless(lim, key, calls) && DeniedUnlessKept(RunKey(lim, key, calls).0, keep)
    ensures |RunKey(lim, key, calls).0| == |keep| == |Found(lim, key, calls)|
    ensures (Found(lim, key, Erase(calls, keep)) == Erase(Found(lim, key, calls), keep))
              <==> Harmless(lim, key, Erase(calls, keep))
    ensures Harmless(lim, key, Erase(calls, keep)) ==>
              RunKey(lim, key, Erase(calls, keep)).0 == Erase(RunKey(lim, key, calls).0, keep) &&
              (keep[|keep| - 1] ==> RunKey(lim, key, Erase(calls, keep)).1 == RunKey(lim, key, calls).1)
  {
    hide Step, RunKey, Run, Found, FoundForever, Harmless, Erase, Monotone, DeniedUnlessKept, TtlOnGrant;
    ExpiryIsInvisibleIff(lim, key, calls);
    ExpiryIsInvisibleIff(lim, key, Erase(calls, keep));
    EraseNows(calls, keep);
    EraseFrom(lim, BucketOf(key), BucketOf(key), Nows(calls), keep, calls[0].now);
    EndsWithLastCall(lim, key, calls);
    if keep[|keep| - 1] {
      LastKept(calls, keep);
      EndsWithLastCall(lim, key, Erase(calls, keep));
    }
  }

  /** Between any two calls, however far apart, the Redis clock never gains more than the margin. */
  predicate ClocksStayClose(calls: seq<Call>) {
    forall i, j :: 0 <= i < j < |calls| ==> Drift(calls[i], calls[j]) <= MARGIN as real
  }

  lemma {:induction false} ErasedCallsStayClose(calls: seq<Call>, keep: seq<bool>)
    requires |keep| == |calls| && ClocksStayClose(calls)
    ensures ClocksStayClose(Erase(calls, keep))
    ensures forall call :: call in Erase(calls, keep) ==> call in calls
    decreases |calls|
  {
    hide Drift;
    if calls != [] {
      var rest := Erase(calls[1..], keep[1..]);
      assert forall i, j :: 0 <= i < j < |calls[1..]| ==>
               calls[1..][i] == calls[i + 1] && calls[1..][j] == calls[j + 1];
      ErasedCallsStayClose(calls[1..], keep[1..]);
      forall j | 0 <= j < |rest|
        ensures Drift(calls[0], rest[j]) <= MARGIN as real
      {
        assert rest[j] in calls[1..];
        var i :| 0 <= i < |calls[1..]| && calls[1..][i] == rest[j];
        assert calls[i + 1] == rest[j];
      }
    }
  }

  /** Clocks that stay close over the whole run are close enough for every erasure. */
  lemma CloseClocksSurviveErasure(lim: Limit, calls: seq<Call>, keep: seq<bool>)
    requires Positive(lim) && |keep| == |calls| && ClocksStayClose(calls)
    ensures Harmless(lim, None, calls) && Harmless(lim, None, Erase(calls, keep))
  {
    hide Drift, Harmless, Erase;
    ErasedCallsStayClose(calls, keep);
    AgreeingClocksAreHarmless(lim, calls);
    AgreeingClocksAreHarmless(lim, Erase(calls, keep));
  }

  /**
   Clocks that agree from call to call are not enough: a denied call refreshes the key, so erasing it can
   let a later call find a full bucket.
   */
  lemma DriftAddsUp()
    ensures
      var lim := Limit(1.0, 1.0, 1.0);
      var calls := [Call(0.0, 0.0), Call(0.5, 60.5), Call(0.75, 120.75)];
      var keep := [true, false, true];
      && ClocksAgree(calls) && Monotone(Nows(calls)) && DeniedUnlessKept(RunKey(lim, None, calls).0, keep)
      && RunKey(lim, None, Erase(calls, keep)).0 != Erase(RunKey(lim, None, calls).0, keep)
  {
    var lim := Limit(1.0, 1.0, 1.0);
    var calls := [Call(0.0, 0.0), Call(0.5, 60.5), Call(0.75, 120.75)];
    var keep := [true, false, true];
    hide Step, Level;
    DriftingSteps(lim);
    var (v0, k0) := Step(lim, None, 0.0, 0.0);
    var (v1, k1) := Step(lim, Some(k0), 0.5, 60.5);
    var (v2, k2) := Step(lim, Some(k1), 0.75, 120.75);
    var (w2, l2) := Step(lim, Some(k0), 0.75, 120.75);
    assert Nows(calls) == [0.0, 0.5, 0.75];
    RunTwo(lim, Some(k0), calls[1..]);
    RunOne(lim, Some(k0), [calls[2]]);
    EraseMiddle(calls[0], calls[1], calls[2]);
    assert [calls[0], calls[2]][1..] == [calls[2]];
    assert RunKey(lim, None, calls).0 == [v0] + [v1, v2] == [v0, v1, v2];
    assert RunKey(lim, None, [calls[0], calls[2]]).0 == [v0] + [w2] == [v0, w2];
    EraseMiddle(v0, v1, v2);
    assert [v0, w2][1] != [v0, v2][1];
  }

  lemma DriftingSteps(lim: Limit)
    requires lim == Limit(1.0, 1.0, 1.0)
    ensures
      var (v0, k0) := Step(lim, None, 0.0, 0.0);
      var (v1, k1) := Step(lim, Some(k0), 0.5, 60.5);
      v0.allowed && !v1.allowed && !Step(lim, Some(k1), 0.75, 120.75).0.allowed &&
      Step(lim, Some(k0), 0.75, 120.75).0.allowed
  {
    assert TtlOnGrant(lim) == 61 && TtlOnDenial(lim) == 61;
    var k0 := Step(lim, None, 0.0, 0.0).1;
    assert k0 == Stored(Bucket(0.0, 0.0), 61.0);
    var k1 := Step(lim, Some(k0), 0.5, 60.5).1;
    assert k1 == Stored(Bucket(0.5, 0.5), 121.5);
  }

  lemma EraseMiddle<T>(x: T, y: T, z: T)
    ensures Erase([x, y, z], [true, false, true]) == [x, z]
  {
    assert [x, y, z][1..] == [y, z] && [y, z][1..] == [z];
    assert [true, false, true][1..] == [false, true] && [false, true][1..] == [true];
    assert Erase([z], [true]) == [z];
    assert Erase([y, z], [false, true]) == [z];
  }

  lemma RunOne(lim: Limit, key: Option<Stored>, calls: seq<Call>)
    requires Positive(lim) && |calls| == 1
    ensures RunKey(lim, key, calls).0 == [Step(lim, key, calls[0].now, calls[0].at).0]
  {
    assert calls[1..] == [];
  }

  lemma RunTwo(lim: Limit, key: Option<Stored>, calls: seq<Call>)
    requires Positive(lim) && |calls| == 2
    ensures
      var (v, k) := Step(lim, key, calls[0].now, calls[0].at);
      RunKey(lim, key, calls).0 == [v, Step(lim, Some(k), calls[1].now, calls[1].at).0]
  {
    RunOne(lim, Some(Step(lim, key, calls[0].now, calls[0].at).1), calls[1..]);
  }

  // ----- Retry-After (section 10.2.3 of RFC 9110) -------------------------------------------------

  /** Over a bucket that is never expired, a whole number of seconds is enough exactly from `retryAfter` on. */
  lemma WaitIsEnough(lim: Limit, hash: Option<Bucket>, now: real, wait: nat)
    requires Positive(lim) && WithinCapacity(lim, hash)
    requires !Eval(lim, hash, now).0.allowed
    ensures
      var (v, b) := Eval(lim, hash, now);
      && v.retryAfter >= 1
      && (Level(lim, Some(b), now + wait as real) >= lim.cost
          <==> lim.cost <= lim.capacity && wait >= v.retryAfter)
  {
    var (v, b) := Eval(lim, hash, now);
    assert v.retryAfter == Ceil((lim.cost - b.tokens) / lim.rate);
    RefillReaches(lim.rate, lim.cost - b.tokens, wait as real);
    EvalWithinCapacity(lim, hash, now);
    NonNegative(wait as real, lim.rate);
    assert Level(lim, Some(b), now + wait as real) == Min(lim.capacity, b.tokens + wait as real * lim.rate);
  }

  lemma RefillReaches(rate: real, missing: real, wait: real)
    requires rate > 0.0 && missing > 0.0
    ensures missing / rate > 0.0
    ensures wait * rate >= missing <==> wait >= missing / rate
  {
    var need := missing / rate;
    assert need * rate == missing;
    assert (wait - need) * rate == wait * rate - missing;
    if wait >= need {
      NonNegative(wait - need, rate);
    } else {
      assert (need - wait) * rate > 0.0;
      assert (need - wait) * rate == missing - wait * rate;
    }
  }

  /**
   After a denial, the next call of an otherwise idle key, a whole number of worker seconds later and
   whenever the Redis clock has it, is admitted exactly when that number has reached `retryAfter` or the key
   has expired meanwhile; if the cost exceeds the capacity it never is. With clocks that agree the Redis
   clock plays no part: `retryAfter` is the least wait.
   */
  lemma RetryAfterIsLeast(lim: Limit, key: Option<Stored>, call: Call, wait: nat, at: real)
    requires Positive(lim) && WithinCapacity(lim, BucketOf(key))
    requires !Step(lim, key, call.now, call.at).0.allowed
    ensures
      var (v, k) := Step(lim, key, call.now, call.at);
      var later := Call(call.now + wait as real, at);
      var admitted := Step(lim, Some(k), later.now, later.at).0.allowed;
      && v.retryAfter >= 1
      && (admitted <==> lim.cost <= lim.capacity && (wait >= v.retryAfter || Expired(Some(k), at)))
      && (Drift(call, later) <= MARGIN as real ==> (admitted <==> lim.cost <= lim.capacity && wait >= v.retryAfter))
  {
    hide Level, Gain, TtlOnGrant, TtlOnDenial, Ceil;
    var k := Step(lim, key, call.now, call.at).1;
    var later := Call(call.now + wait as real, at);
    EvalWithinCapacity(lim, Visible(key, call.at), call.now);
    WaitIsEnough(lim, Visible(key, call.at), call.now, wait);
    EvalWithinCapacity(lim, None, later.now);
    SameTtl(lim);
    if Drift(call, later) <= MARGIN as real && Expired(Some(k), at) {
      FullAfterIdle(lim, k.bucket, later.now);
    }
  }

  // ----- Which limit applies ----------------------------------------------------------------------

  predicate StartsWith(path: string, prefix: string) {
    prefix <= path
  }

  /** The route table of the source; note that the first two prefixes have no leading slash. */
  const ROUTE_LIMITS: map<string, Limit> :=
    map["api/v1/callbacks/" := Limit(200.0, 10.0, 1.0), "api/v1/payments/stk" := Limit(20.0, 0.5, 1.0),
        "/health" := Limit(100.0, 10.0, 1.0), "/ready" := Limit(100.0, 10.0, 1.0)]
  const DEFAULT_LIMIT := Limit(60.0, 1.0, 1.0)

  /** The prefixes, longest first, as `sorted(_ROUTE_LIMITS, key=len, reverse=True)` gives them. */
  const BY_LENGTH: seq<string> := ["api/v1/payments/stk", "api/v1/callbacks/", "/health", "/ready"]

  /** The most specific matching prefix wins; the default applies when none matches. */
  method ResolveLimit(path: string) returns (limit: Limit)
    ensures (limit == DEFAULT_LIMIT && forall p <- ROUTE_LIMITS.Keys :: !StartsWith(path, p)) ||
            (exists p <- ROUTE_LIMITS.Keys :: StartsWith(path, p) && limit == ROUTE_LIMITS[p] &&
                       forall q <- ROUTE_LIMITS.Keys :: StartsWith(path, q) ==> |q| <= |p|)
    ensures limit == if "api/v1/payments/stk" <= path then Limit(20.0, 0.5, 1.0)
                     else if "api/v1/callbacks/" <= path then Limit(200.0, 10.0, 1.0)
                     else if "/health" <= path || "/ready" <= path then Limit(100.0, 10.0, 1.0)
                     else Limit(60.0, 1.0, 1.0)
    ensures |path| > 0 && path[0] == '/' ==> limit in {Limit(100.0, 10.0, 1.0), Limit(60.0, 1.0, 1.0)}
  {
    for i := 0 to |BY_LENGTH|
      invariant forall j :: 0 <= j < i ==> !StartsWith(path, BY_LENGTH[j])
    {
      var prefix := BY_LENGTH[i];
      if StartsWith(path, prefix) {
        assert forall q <- ROUTE_LIMITS.Keys :: StartsWith(path, q) ==> |q| <= |prefix| by {
          assert ROUTE_LIMITS.Keys == {BY_LENGTH[0], BY_LENGTH[1], BY_LENGTH[2], BY_LENGTH[3]};
        }
        return ROUTE_LIMITS[prefix];
      }
    }
    assert ROUTE_LIMITS.Keys == {BY_LENGTH[0], BY_LENGTH[1], BY_LENGTH[2], BY_LENGTH[3]};
    return DEFAULT_LIMIT;
  }
}
