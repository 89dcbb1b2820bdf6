/**
 The callback job of app/tasks/stk_tasks.py: a run of `process_callback` that raises is re-enqueued with
 exponential backoff, but it leaves the duplicate guard it has set. `AsWritten` keeps that guard;
 `GuardReleased` deletes it whenever the run ends in an exception.
 */
module CallbackRetry {
  import opened Basics
  import opened Payments
  import opened StkProtocol
  import opened CallbackDelivery
  import opened Scenarios

  datatype Wiring = AsWritten | GuardReleased

  const BACKOFF_BASE := 30
  const MAX_RETRIES := 5
  const TIME_LIMIT := 60
  const DEFAULT_GUARD_TTL := 86400

  function Pow2(n: nat): nat {
    if n == 0 then 1 else 2 * Pow2(n - 1)
  }

  function Backoff(retries: nat): nat {
    BACKOFF_BASE * Pow2(retries)
  }

  datatype Lookup = PaymentFound | NoPayment | LookupFailed

  /**
   What the environment does to one run: Redis answers the guard (and its deletion), the lookup and the
   transaction end somehow, the run takes a while, and the queue delays the next one beyond its countdown.
   `lost` is a worker that dies before its run is over: acknowledged late, the message is delivered again.
   */
  datatype Attempt = Attempt(guard: RedisReply, lookup: Lookup, db: DbReply, release: RedisReply,
                             took: real, delay: real, lost: bool)

  /** The matched row, the expiry of the guard, the clock, the retry count, and whether a run returned normally. */
  datatype Task = Task(row: Payment, guardUntil: Option<real>, now: real, retries: nat, ended: bool)

  /** Nothing comes after: a run returned, or the retries are used up. */
  predicate Over(t: Task) {
    t.ended || t.retries > MAX_RETRIES
  }

  predicate GuardSet(t: Task) {
    t.guardUntil.Some? && t.now < t.guardUntil.value
  }

  /** The CHECK constraint on amount_paid refuses this outcome, whenever it is tried. */
  predicate Refused(cb: Callback) {
    cb.code == 0 && cb.amount.Some? && cb.amount.value < 0.0
  }

  predicate Commits(cb: Callback, e: Attempt) {
    e.lookup.PaymentFound? && !Refused(cb) && !e.db.DbDown?
  }

  predicate Fails(cb: Callback, e: Attempt) {
    e.lost || e.lookup.LookupFailed? || (e.lookup.PaymentFound? && (Refused(cb) || !e.db.DbOk?))
  }

  /** The run raises, and lives to release its guard. */
  predicate Releases(w: Wiring, cb: Callback, e: Attempt) {
    w.GuardReleased? && Fails(cb, e) && !e.lost && !e.release.Down?
  }

  /** One run of `process_callback`; `ended` says that it returned normally. */
  function Once(w: Wiring, ttl: real, cb: Callback, t: Task, e: Attempt): Task {
    if e.guard.Up? && GuardSet(t) then t.(ended := true)
    else
      var guarded := if e.guard.Down? || GuardSet(t) then t.guardUntil else Some(t.now + ttl);
      Task(if Commits(cb, e) then Reported(t.row, cb) else t.row,
           if Releases(w, cb, e) then None else guarded,
           t.now + e.took,
           t.retries,
           !Fails(cb, e))
  }

  /** What follows a run: a countdown after one that raised, as long as retries are left; none after a lost one. */
  function Waited(t: Task, e: Attempt): Task {
    if t.ended then t
    else if e.lost then t.(now := t.now + e.delay)
    else t.(now := t.now + Countdown(t.retries, e), retries := t.retries + 1)
  }

  function Countdown(retries: nat, e: Attempt): real {
    if retries < MAX_RETRIES then Backoff(retries) as real + e.delay else 0.0
  }

  /** The job after at most `k` runs. */
  function After(w: Wiring, ttl: real, cb: Callback, t: Task, es: seq<Attempt>, k: nat): Task
    requires k <= |es|
  {
    if k == 0 then t
    else
      var u := After(w, ttl, cb, t, es, k - 1);
      if Over(u) then u else Waited(Once(w, ttl, cb, u, es[k - 1]), es[k - 1])
  }

  // ----- Which run gets past the guard ------------------------------------------------------------

  /** How many of the first `k` runs count as tries. */
  function Retries(es: seq<Attempt>, k: nat): nat
    requires k <= |es|
  {
    if k == 0 then 0 else Retries(es, k - 1) + if es[k - 1].lost then 0 else 1
  }

  /** A guard set by one of the first `k` runs is still there when run `k` starts, unless it expired. */
  predicate GuardLeft(w: Wiring, cb: Callback, es: seq<Attempt>, k: nat)
    requires k <= |es|
  {
    k > 0 &&
    (GuardLeft(w, cb, es, k - 1) || !es[k - 1].guard.Down?) &&
    !Releases(w, cb, es[k - 1])
  }

  predicate Passes(w: Wiring, cb: Callback, es: seq<Attempt>, k: nat)
    requires k < |es|
  {
    !es[k].guard.Up? || !GuardLeft(w, cb, es, k)
  }

  /** The first `k` runs all got past the guard and failed, and a try is left, so run `k` takes place. */
  predicate Reaches(w: Wiring, cb: Callback, es: seq<Attempt>, k: nat)
    requires k <= |es|
  {
    Retries(es, k) <= MAX_RETRIES && forall j :: 0 <= j < k ==> Passes(w, cb, es, j) && Fails(cb, es[j])
  }

  /** Run `k` takes place, gets past the guard, and commits the outcome. */
  predicate AppliesAt(w: Wiring, cb: Callback, es: seq<Attempt>, k: nat)
    requires k < |es|
  {
    Reaches(w, cb, es, k) && Passes(w, cb, es, k) && Commits(cb, es[k])
  }

  predicate SomeApplies(w: Wiring, cb: Callback, es: seq<Attempt>, k: nat)
    requires k <= |es|
  {
    exists j :: 0 <= j < k && AppliesAt(w, cb, es, j)
  }

  lemma OneMoreRun(w: Wiring, cb: Callback, es: seq<Attempt>, k: nat)
    requires k < |es|
    ensures SomeApplies(w, cb, es, k + 1) <==> SomeApplies(w, cb, es, k) || AppliesAt(w, cb, es, k)
    ensures Reaches(w, cb, es, k + 1) <==>
              Reaches(w, cb, es, k) && Passes(w, cb, es, k) && Fails(cb, es[k]) && Retries(es, k + 1) <= MAX_RETRIES
  {
    hide Passes, Fails, Commits;
    if SomeApplies(w, cb, es, k) {
      var j :| 0 <= j < k && AppliesAt(w, cb, es, j);
      assert AppliesAt(w, cb, es, j);
    }
    if SomeApplies(w, cb, es, k + 1) {
      var j :| 0 <= j < k + 1 && AppliesAt(w, cb, es, j);
      assert j < k ==> SomeApplies(w, cb, es, k);
    }
  }

  // ----- Time -------------------------------------------------------------------------------------

  predicate SaneTimes(es: seq<Attempt>) {
    forall e <- es :: e.took >= 0.0 && e.delay >= 0.0
  }

  /** From the start of the first run to the start of run `k`, if all runs before it fail. */
  function Span(es: seq<Attempt>, k: nat): real
    requires k <= |es|
  {
    if k == 0 then 0.0
    else
      var e := es[k - 1];
      Span(es, k - 1) + e.took + if e.lost then e.delay else Countdown(Retries(es, k - 1), e)
  }

  function Delays(es: seq<Attempt>, k: nat): real
    requires k <= |es|
  {
    if k == 0 then 0.0 else Delays(es, k - 1) + es[k - 1].delay
  }

  lemma {:induction false} SpanGrows(es: seq<Attempt>, j: nat, k: nat)
    requires j <= k <= |es| && SaneTimes(es)
    ensures Span(es, j) <= Span(es, k)
  {
    if j < k {
      assert es[k - 1] in es;
      SpanGrows(es, j, k - 1);
    }
  }

  /** The time that the first `k` runs take. */
  function RunTimes(es: seq<Attempt>, k: nat): real
    requires k <= |es|
  {
    if k == 0 then 0.0 else RunTimes(es, k - 1) + es[k - 1].took
  }

  /**
   The countdowns before the n-th retry sum to exactly 30 * (2^n - 1) seconds, 930 for all five; all other time is
   spent in runs, in the queue, or on messages that are delivered again, which add no countdown.
   */
  lemma {:induction false} BackoffsSum(es: seq<Attempt>, k: nat)
    requires k <= |es| && Retries(es, k) <= 5
    ensures Span(es, k) == (30 * (Pow2(Retries(es, k)) - 1)) as real + RunTimes(es, k) + Delays(es, k)
    ensures 30 * (Pow2(5) - 1) == 930
  {
    assert Pow2(1) == 2 && Pow2(2) == 4 && Pow2(3) == 8 && Pow2(4) == 16 && Pow2(5) == 32;
    if k > 0 {
      BackoffsSum(es, k - 1);
    }
  }

  lemma {:induction false} RunTimesAreLimited(es: seq<Attempt>, k: nat)
    requires k <= |es| && forall e <- es :: e.took <= TIME_LIMIT as real
    ensures RunTimes(es, k) <= (TIME_LIMIT * k) as real
  {
    if k > 0 {
      assert es[k - 1] in es;
      RunTimesAreLimited(es, k - 1);
    }
  }

  /** All runs start within the default guard unless the queue, or messages delivered again, take up most of a day. */
  lemma DefaultGuardOutlivesRetries(es: seq<Attempt>, k: nat)
    requires k <= |es| && Retries(es, k) <= MAX_RETRIES && forall e <- es :: e.took <= TIME_LIMIT as real
    requires Delays(es, k) < (86400 - 930 - 60 * k) as real
    ensures Span(es, k) < DEFAULT_GUARD_TTL as real
  {
    BackoffsSum(es, k);
    RunTimesAreLimited(es, k);
    PowersGrow(Retries(es, k), MAX_RETRIES);
  }

  /**
   After a run that raised, the job is over if it was the sixth; otherwise the next one starts after a countdown of
   30, 60, 120, 240 and 480 seconds in turn. After a lost one it starts as soon as the message is delivered again,
   with the same count.
   */
  lemma RetryWaits(w: Wiring, ttl: real, cb: Callback, t: Task, es: seq<Attempt>, k: nat)
    requires k < |es| && !Over(After(w, ttl, cb, t, es, k)) && !After(w, ttl, cb, t, es, k + 1).ended
    ensures
      var u, v, e := After(w, ttl, cb, t, es, k), After(w, ttl, cb, t, es, k + 1), es[k];
      if e.lost then !Over(v) && v.retries == u.retries && v.now == u.now + e.took + e.delay
      else
        && v.retries == u.retries + 1 && (Over(v) <==> u.retries == 5)
        && v.now == u.now + e.took + if u.retries == 5 then 0.0
                                     else [30.0, 60.0, 120.0, 240.0, 480.0][u.retries] + e.delay
  {
    assert Pow2(0) == 1 && Pow2(1) == 2 && Pow2(2) == 4 && Pow2(3) == 8 && Pow2(4) == 16;
  }

  lemma {:induction false} PowersGrow(m: nat, n: nat)
    requires m <= n
    ensures Pow2(m) <= Pow2(n)
  {
    if m < n {
      PowersGrow(m, n - 1);
    }
  }

  // ----- What the retries achieve -----------------------------------------------------------------

  lemma ReportedTwice(row: Payment, cb: Callback)
    ensures Reported(Reported(row, cb), cb) == Reported(row, cb)
  {
  }

  /** The invariant of the runs: row, end, clock, count and guard after `k` of them. */
  ghost predicate Follows(w: Wiring, ttl: real, cb: Callback, t: Task, es: seq<Attempt>, k: nat)
    requires k <= |es|
  {
    var u := After(w, ttl, cb, t, es, k);
    && (u.row == if SomeApplies(w, cb, es, k) then Reported(t.row, cb) else t.row)
    && (!Over(u) <==> Reaches(w, cb, es, k))
    && (!Over(u) ==> u.now == t.now + Span(es, k) && u.retries == Retries(es, k))
    && (!Over(u) ==> (u.guardUntil.Some? <==> GuardLeft(w, cb, es, k)))
    && (u.guardUntil.Some? ==> u.guardUntil.value >= t.now + ttl)
  }

  /** A job whose first run is yet to come. */
  predicate Fresh(t: Task) {
    !t.ended && t.retries == 0 && t.guardUntil.None?
  }

  /** One run, from a job whose guard is `left` and cannot have expired. */
  lemma OneRun(w: Wiring, ttl: real, cb: Callback, start: real, u: Task, e: Attempt, left: bool)
    requires !Over(u) && (u.guardUntil.Some? <==> left) && start <= u.now < start + ttl
    requires u.guardUntil.Some? ==> u.guardUntil.value >= start + ttl
    ensures
      var v := Waited(Once(w, ttl, cb, u, e), e);
      var passes := !e.guard.Up? || !left;
      && v.row == (if passes && Commits(cb, e) then Reported(u.row, cb) else u.row)
      && (!v.ended <==> passes && Fails(cb, e))
      && (!v.ended ==> v.now == u.now + e.took + if e.lost then e.delay else Countdown(u.retries, e))
      && (!v.ended ==> v.retries == u.retries + if e.lost then 0 else 1)
      && (!v.ended ==> (v.guardUntil.Some? <==> (left || !e.guard.Down?) && !Releases(w, cb, e)))
      && (v.guardUntil.Some? ==> v.guardUntil.value >= start + ttl)
  {
    hide Reported, Fails, Commits, Backoff, Countdown;
  }

  lemma FollowsOne(w: Wiring, ttl: real, cb: Callback, t: Task, es: seq<Attempt>, k: nat)
    requires k < |es| && SaneTimes(es) && Span(es, k) < ttl
    requires Follows(w, ttl, cb, t, es, k)
    ensures Follows(w, ttl, cb, t, es, k + 1)
  {
    var u := After(w, ttl, cb, t, es, k);
    SpanGrows(es, 0, k);
    ReportedTwice(t.row, cb);
    OneMoreRun(w, cb, es, k);
    hide Reported, Commits, Fails, Releases, Countdown, SomeApplies, Reaches, SaneTimes, Once, Waited;
    if !Over(u) {
      OneRun(w, ttl, cb, t.now, u, es[k], GuardLeft(w, cb, es, k));
    }
  }

  /**
   For every behaviour of Redis, of the database, of the queue and of the workers within the life of the
   guard: the payment gets the outcome exactly when some run that takes place gets past the guard and commits.
   */
  lemma {:induction false} AppliedIff(w: Wiring, ttl: real, cb: Callback, t: Task, es: seq<Attempt>, k: nat)
    requires k <= |es| && SaneTimes(es) && Span(es, k) < ttl && Fresh(t)
    ensures Follows(w, ttl, cb, t, es, k)
  {
    hide Follows;
    if k == 0 {
      FollowsNothing(w, ttl, cb, t, es);
    } else {
      SpanGrows(es, k - 1, k);
      AppliedIff(w, ttl, cb, t, es, k - 1);
      FollowsOne(w, ttl, cb, t, es, k - 1);
    }
  }

  lemma FollowsNothing(w: Wiring, ttl: real, cb: Callback, t: Task, es: seq<Attempt>)
    requires Fresh(t)
    ensures Follows(w, ttl, cb, t, es, 0)
  {
  }

  /** Redis answers in every run, and deletes the guard when told to. */
  predicate RedisUp(es: seq<Attempt>) {
    forall e <- es :: e.guard.Up? && e.release.Up?
  }

  /**
   As written, with Redis up, every further run stops at the guard that the first one has set: the payment
   gets its outcome exactly when the first run commits it, although the job goes on to report success.
   */
  lemma RetriesStopAtTheGuard(ttl: real, cb: Callback, t: Task, es: seq<Attempt>)
    requires |es| >= 2 && SaneTimes(es) && Span(es, |es|) < ttl && RedisUp(es) && Fresh(t)
    ensures
      var end := After(AsWritten, ttl, cb, t, es, |es|);
      end.ended && end.row == if Commits(cb, es[0]) then Reported(t.row, cb) else t.row
  {
    hide Follows, Fails, Commits, Span;
    SpanGrows(es, 2, |es|);
    AppliedIff(AsWritten, ttl, cb, t, es, |es|);
    FollowedTo(AsWritten, ttl, cb, t, es, |es|);
    assert forall k :: 0 <= k < |es| ==> es[k].guard.Up?;
    assert GuardLeft(AsWritten, cb, es, 0) == false && GuardLeft(AsWritten, cb, es, 1);
    assert !Passes(AsWritten, cb, es, 1);
    assert Retries(es, 0) == 0;
    assert SomeApplies(AsWritten, cb, es, |es|) <==> AppliesAt(AsWritten, cb, es, 0);
    SecondRunEnds(ttl, cb, t, es);
    EndedStays(AsWritten, ttl, cb, t, es, 2, |es|);
  }

  lemma SecondRunEnds(ttl: real, cb: Callback, t: Task, es: seq<Attempt>)
    requires |es| >= 2 && SaneTimes(es) && Span(es, 2) < ttl && RedisUp(es) && Fresh(t)
    ensures After(AsWritten, ttl, cb, t, es, 2).ended
  {
    assert es[0] in es && es[1] in es;
    SpanGrows(es, 0, 1);
    SpanGrows(es, 1, 2);
    assert After(AsWritten, ttl, cb, t, es, 0) == t;
    assert Span(es, 0) == 0.0 && Retries(es, 0) == 0;
    hide Fails, Commits, Reported, Countdown;
    var u := After(AsWritten, ttl, cb, t, es, 1);
    OneRun(AsWritten, ttl, cb, t.now, t, es[0], false);
    if !u.ended {
      assert GuardSet(u) && !Over(u);
    }
  }

  lemma FollowedTo(w: Wiring, ttl: real, cb: Callback, t: Task, es: seq<Attempt>, k: nat)
    requires k <= |es| && Follows(w, ttl, cb, t, es, k)
    ensures
      var u := After(w, ttl, cb, t, es, k);
      && u.row == (if SomeApplies(w, cb, es, k) then Reported(t.row, cb) else t.row)
      && (!Over(u) <==> Reaches(w, cb, es, k))
  {
  }

  /** In the first `k` runs no worker is lost and no answered lookup misses the payment; a try is left for the next. */
  predicate Unbroken(es: seq<Attempt>, k: nat)
    requires k <= |es|
  {
    k <= MAX_RETRIES && forall j :: 0 <= j < k ==> !es[j].lost && !es[j].lookup.NoPayment?
  }

  /**
   With the guard released by a run that raises, and Redis up, the payment gets its outcome exactly when some
   run commits it before a worker is lost and before a run comes too early and finds no payment: releasing
   the guard on exceptions helps against neither.
   */
  lemma ReleasedGuardApplies(ttl: real, cb: Callback, t: Task, es: seq<Attempt>)
    requires SaneTimes(es) && Span(es, |es|) < ttl && RedisUp(es) && Fresh(t)
    ensures After(GuardReleased, ttl, cb, t, es, |es|).row
         == if exists k :: 0 <= k < |es| && Commits(cb, es[k]) && Unbroken(es, k) then Reported(t.row, cb) else t.row
  {
    hide Follows, Span;
    AppliedIff(GuardReleased, ttl, cb, t, es, |es|);
    FollowedTo(GuardReleased, ttl, cb, t, es, |es|);
    if k :| 0 <= k < |es| && Commits(cb, es[k]) && Unbroken(es, k) {
      SomeRunApplies(cb, es, k);
    }
    if k :| 0 <= k < |es| && AppliesAt(GuardReleased, cb, es, k) {
      ApplyingRunIsUnbroken(cb, es, k);
    }
  }

  /** From the first committing run on: all runs before it raised and released the guard. */
  lemma {:induction false} SomeRunApplies(cb: Callback, es: seq<Attempt>, k: nat)
    requires k < |es| && Commits(cb, es[k]) && Unbroken(es, k) && RedisUp(es)
    ensures SomeApplies(GuardReleased, cb, es, |es|)
  {
    if j :| 0 <= j < k && Commits(cb, es[j]) {
      SomeRunApplies(cb, es, j);
    } else {
      assert forall j :: 0 <= j <= k ==> es[j] in es;
      ReleasedRuns(cb, es, k);
      CountOfUnbroken(es, k);
      assert AppliesAt(GuardReleased, cb, es, k);
    }
  }

  lemma {:induction false} CountOfUnbroken(es: seq<Attempt>, k: nat)
    requires k <= |es| && forall j :: 0 <= j < k ==> !es[j].lost
    ensures Retries(es, k) == k
  {
    if k > 0 {
      CountOfUnbroken(es, k - 1);
    }
  }

  lemma {:induction false} ReleasedRuns(cb: Callback, es: seq<Attempt>, k: nat)
    requires k < |es| && forall j :: 0 <= j < k ==> Fails(cb, es[j]) && !es[j].lost && es[j].release.Up?
    ensures forall j :: 0 <= j <= k ==> !GuardLeft(GuardReleased, cb, es, j)
  {
    if k > 0 {
      ReleasedRuns(cb, es, k - 1);
    }
  }

  /** A lost worker leaves its guard behind, which stops the next run. */
  lemma ApplyingRunIsUnbroken(cb: Callback, es: seq<Attempt>, k: nat)
    requires k < |es| && AppliesAt(GuardReleased, cb, es, k) && RedisUp(es)
    ensures Unbroken(es, k)
  {
    hide Commits;
    forall j | 0 <= j < k
      ensures !es[j].lost && !es[j].lookup.NoPayment?
    {
      assert Fails(cb, es[j]);
      assert es[j] in es && es[j + 1] in es;
      assert Passes(GuardReleased, cb, es, j + 1);
      assert !GuardLeft(GuardReleased, cb, es, j + 1);
    }
    CountOfUnbroken(es, k);
  }

  /** The condition on time is exact: the first retry gets through as written if and only if the guard has expired. */
  lemma FirstRetryWaitsForExpiry(ttl: real, cb: Callback, t: Task, es: seq<Attempt>)
    requires |es| >= 2 && RedisUp(es) && SaneTimes(es) && ttl > 0.0 && Fresh(t)
    requires Fails(cb, es[0]) && !Commits(cb, es[0]) && Commits(cb, es[1])
    ensures After(AsWritten, ttl, cb, t, es, 2).row
         == if Span(es, 1) >= ttl then Reported(t.row, cb) else t.row
  {
    assert es[0] in es && es[1] in es;
    assert After(AsWritten, ttl, cb, t, es, 0) == t;
    assert Span(es, 0) == 0.0 && Retries(es, 0) == 0;
    hide Fails, Commits, Reported, Countdown;
    var first := After(AsWritten, ttl, cb, t, es, 1);
    OneRun(AsWritten, ttl, cb, t.now, t, es[0], false);
    assert first == Waited(Once(AsWritten, ttl, cb, t, es[0]), es[0]);
    assert first.guardUntil == Some(t.now + ttl) && first.now == t.now + Span(es, 1);
  }

  /** A success with a negative amount is refused by the CHECK constraint: no number of runs ever applies it. */
  lemma {:induction false} NegativeAmountNeverApplies(
      w: Wiring, ttl: real, cb: Callback, t: Task, es: seq<Attempt>, k: nat)
    requires k <= |es| && cb.code == 0 && cb.amount.Some? && cb.amount.value < 0.0
    ensures After(w, ttl, cb, t, es, k).row == t.row
  {
    if k > 0 {
      NegativeAmountNeverApplies(w, ttl, cb, t, es, k - 1);
    }
  }

  // ----- One run, in the protocol -----------------------------------------------------------------

  /** What the processor of the protocol is answered in a run that behaves as `e`. */
  function AnswersOf(t: Task, e: Attempt, id: PaymentId): seq<Answer> {
    [Redis(e.guard)] +
    if e.guard.Up? && GuardSet(t) then []
    else
      match e.lookup
      case PaymentFound => [Found(id), Db(e.db)]
      case NoPayment => [NotFound(id)]
      case LookupFailed => [Db(DbDown)]
  }

  /** The shared memory as this job sees it: its row if the lookup finds one, and its guard. */
  predicate Sees(m: Memory, cb: Callback, t: Task, e: Attempt, id: PaymentId) {
    && id in m.rows && m.rows[id] == t.row && (cb.checkout in m.guards <==> GuardSet(t))
    && (e.lookup.PaymentFound? ==> t.row.checkout == Some(cb.checkout))
    && (e.lookup.NoPayment? ==> forall p <- m.rows.Keys :: m.rows[p].checkout != Some(cb.checkout))
  }

  /** The states that the processor goes through. */
  function StepsOf(m: Memory, cb: Callback, t: Task, e: Attempt, id: PaymentId): seq<Step> {
    var guards := if e.guard.Down? then m.guards else m.guards + {cb.checkout};
    var guarded := m.(guards := guards, admitted := m.admitted + [cb]);
    [Step(m, TakeGuard(cb))] +
    if e.guard.Up? && GuardSet(t) then [Step(m, CallbackEnded(cb, Ignored))]
    else
      [Step(guarded, FindPayment(cb))] +
      match e.lookup
      case PaymentFound =>
        var w := CallbackWrite(cb, id);
        [Step(guarded, ApplyOutcome(cb, id)),
         Step(guarded.(rows := Settle(m.rows, w, e.db)),
              CallbackEnded(cb, if Payments.Raises(m.rows, w, e.db) then Errored else Applied))]
      case NoPayment => [Step(guarded, CallbackEnded(cb, Unmatched))]
      case LookupFailed => [Step(guarded, CallbackEnded(cb, Errored))]
  }

  /**
   A run of the job whose worker survives is a run of one processor in the protocol: it leaves the same row, it
   raises exactly when the processor ends in an error, and as written it leaves a guard exactly when that one does.
   */
  lemma RunIsOfTheProtocol(cfg: Config, s: State, a: ActorId, ttl: real, cb: Callback, t: Task, e: Attempt,
                           id: PaymentId)
    requires a !in s.actors && Sees(s.mem, cb, t, e, id) && (t.guardUntil.Some? ==> GuardSet(t)) && !t.ended && !e.lost
    ensures
      var s' := RunFrom(cfg, s, [Deliver(a, cb)] + Acts(a, AnswersOf(t, e, id)));
      var t' := Once(AsWritten, ttl, cb, t, e);
      && a in s'.actors && s'.actors[a].CallbackEnded?
      && id in s'.mem.rows && s'.mem.rows[id] == t'.row
      && (t'.ended <==> s'.actors[a].ending != Errored)
      && (t'.guardUntil.Some? <==> cb.checkout in s'.mem.guards)
  {
    var steps, answers := StepsOf(s.mem, cb, t, e, id), AnswersOf(t, e, id);
    StepsFollow(cfg, s.mem, cb, t, e, id);
    ArrivalAndCourse(cfg, s, Deliver(a, cb), a, TakeGuard(cb), answers, steps);
    hide RunFrom, Next, Move, Acts, Settle;
    LastStep(s.mem, ttl, cb, t, e, id);
  }

  /** The repair differs in one thing: a run that raises deletes the guard, if Redis does so, seen or unseen. */
  lemma RepairOnlyReleases(ttl: real, cb: Callback, t: Task, e: Attempt)
    requires !t.ended
    ensures
      var t' := Once(AsWritten, ttl, cb, t, e);
      Once(GuardReleased, ttl, cb, t, e)
        == if !t'.ended && !e.lost && e.release in {Up, Lost} then t'.(guardUntil := None) else t'
  {
    hide Reported, Commits, Refused;
  }

  lemma StepsFollow(cfg: Config, m: Memory, cb: Callback, t: Task, e: Attempt, id: PaymentId)
    requires Sees(m, cb, t, e, id)
    ensures
      var steps, answers := StepsOf(m, cb, t, e, id), AnswersOf(t, e, id);
      && |steps| == |answers| + 1 && steps[0] == Step(m, TakeGuard(cb))
      && forall i :: 0 <= i < |answers| ==> Move(cfg, steps[i].mem, steps[i].actor, answers[i]) == steps[i + 1]
  {
    hide Settle, Payments.Raises, CallbackWrite;
  }

  lemma LastStep(m: Memory, ttl: real, cb: Callback, t: Task, e: Attempt, id: PaymentId)
    requires Sees(m, cb, t, e, id) && (t.guardUntil.Some? ==> GuardSet(t)) && !t.ended && !e.lost
    ensures
      var steps := StepsOf(m, cb, t, e, id);
      var step, t' := steps[|steps| - 1], Once(AsWritten, ttl, cb, t, e);
      && step.actor.CallbackEnded? && id in step.mem.rows && step.mem.rows[id] == t'.row
      && (t'.ended <==> step.actor.ending != Errored)
      && (t'.guardUntil.Some? <==> cb.checkout in step.mem.guards)
  {
  }

  // ----- The Celery job ---------------------------------------------------------------------------

  /** The job: the row and the guard it works on, the clock of its queue, and its retry count. */
  class CallbackTask {
    const wiring: Wiring
    const ttl: real
    const callback: Callback
    var row: Payment
    var guardUntil: Option<real>
    var now: real
    var retries: nat

    function Contents(ended: bool): Task
      reads this
    {
      Task(row, guardUntil, now, retries, ended)
    }

    constructor (wiring: Wiring, ttl: real, callback: Callback, row: Payment, now: real)
      ensures this.wiring == wiring && this.ttl == ttl && this.callback == callback
      ensures Contents(false) == Task(row, None, now, 0, false) && Fresh(Contents(false))
    {
      this.wiring, this.ttl, this.callback, this.row, guardUntil, this.now := wiring, ttl, callback, row, None, now;
      retries := 0;
    }

    /** One run of `process_callback` in this job; `failed` is an exception that leaves it, or a lost worker. */
    method ProcessCallback(e: Attempt) returns (failed: bool)
      modifies this`row, this`guardUntil, this`now
      ensures Contents(!failed) == Once(wiring, ttl, callback, old(Contents(false)), e)
    {
      var held := guardUntil.Some? && now < guardUntil.value;
      if e.guard.Up? && held {
        return false;
      }
      if !e.guard.Down? && !held {
        guardUntil := Some(now + ttl);
      }
      now := now + e.took;
      failed := e.lookup.LookupFailed?;
      if e.lookup.PaymentFound? {
        var committed := !Refused(callback) && !e.db.DbDown?;
        if committed {
          row := Reported(row, callback);
        }
        failed := !committed || e.db.DbLost?;
      }
      if e.lost {
        return true;
      }
      if failed && wiring.GuardReleased? && !e.release.Down? {
        guardUntil := None;
      }
    }

    /**
     `process_stk_callback`, with its retries and with messages that are delivered again, over the runs that
     `es` has in store: it comes to an end as the runs describe.
     */
    method Process(es: seq<Attempt>) returns (ended: bool)
      requires Fresh(Contents(false))
      modifies this
      ensures Contents(ended) == After(wiring, ttl, callback, old(Contents(false)), es, |es|)
      ensures SaneTimes(es) && Span(es, |es|) < ttl ==>
                (row == if SomeApplies(wiring, callback, es, |es|) then Reported(old(row), callback) else old(row)) &&
                (!ended && retries <= MAX_RETRIES <==> Reaches(wiring, callback, es, |es|))
    {
      hide Once, Fails, SomeApplies, Reaches, Follows, Span;
      var k := 0;
      ended := false;
      while k < |es| && !ended && retries <= MAX_RETRIES
        invariant k <= |es|
        invariant Contents(ended) == After(wiring, ttl, callback, old(Contents(false)), es, k)
      {
        var failed := ProcessCallback(es[k]);
        ended := !failed;
        if failed && es[k].lost {
          now := now + es[k].delay;
        } else if failed {
          if retries < MAX_RETRIES {
            now := now + (Backoff(retries) as real + es[k].delay);
          }
          retries := retries + 1;
        }
        k := k + 1;
      }
      EndedStays(wiring, ttl, callback, old(Contents(false)), es, k, |es|);
      if SaneTimes(es) && Span(es, |es|) < ttl {
        AppliedIff(wiring, ttl, callback, old(Contents(false)), es, |es|);
        FollowedTo(wiring, ttl, callback, old(Contents(false)), es, |es|);
      }
    }
  }

  lemma {:induction false} EndedStays(w: Wiring, ttl: real, cb: Callback, t: Task, es: seq<Attempt>, k: nat, n: nat)
    requires k <= n <= |es| && (k == n || Over(After(w, ttl, cb, t, es, k)))
    ensures After(w, ttl, cb, t, es, n) == After(w, ttl, cb, t, es, k)
    decreases n - k
  {
    if k < n {
      EndedStays(w, ttl, cb, t, es, k, n - 1);
    }
  }
}
